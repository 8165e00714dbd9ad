/** The whole list of the client, from its events alone: what the user said and
    what was heard of the answers, in the order they came, and every list it
    pushes. */
module FilingHistory {
  import opened Filing

  // ------------------------------------------------------------ joined texts

  /** Texts are joined by one space. */
  lemma {:induction false} JoinedBySpaces(a: seq<Unit>, b: seq<Unit>)
    requires a != [] && b != []
    ensures JoinTexts([]) == "" && JoinTexts([a[0]]) == a[0].text
    ensures JoinTexts(a + b) == JoinTexts(a) + " " + JoinTexts(b)
  {
    if |a| == 1 {
      assert (a + b)[1..] == b && a == [a[0]];
    } else {
      JoinedBySpaces(a[1..], b);
      assert (a + b)[1..] == a[1..] + b;
      var first, rest, last := a[0].text, JoinTexts(a[1..]), JoinTexts(b);
      assert first + " " + (rest + " " + last) == first + " " + rest + " " + last;
    }
  }

  // ------------------------------------------------------------ from the events

  /** Messages without the identity of their turns. */
  function Anonymous(messages: seq<Message>): seq<Message> {
    seq(|messages|, i requires 0 <= i < |messages| => Message(messages[i].role, messages[i].content, ""))
  }

  /** The turn last transcribed, none once identities were forgotten. */
  function LastItem(events: seq<Event>): string {
    if events == [] then ""
    else
      match events[|events| - 1]
      case Transcript(_, item) => item
      case SetHistory(_) => ""
      case Clear => ""
      case Reconnect => ""
      case Teardown => ""
      case _ => LastItem(events[..|events| - 1])
  }

  predicate UserIsLast(messages: seq<Message>) {
    messages != [] && messages[|messages| - 1].role == User
  }

  /** What an answer that ends with e leaves, when that says something. */
  function AnswerLine(trim: string -> string, before: seq<Event>, e: Event): seq<Message> {
    if !EndsWith(before, e) then []
    else
      var text := Content(trim, UnitsSent(before), LastReport(if e.Created? then before else before + [e]));
      if text == "" then [] else [Message(AssistantRole, text, "")]
  }

  /** The conversation: the list the host last gave, then a line per turn
      transcribed, with its last transcript while no answer came in between,
      and a line per answer that was heard, in the order of the events. */
  function Conversation(trim: string -> string, events: seq<Event>): seq<Message> {
    if events == [] then []
    else
      var before, e := events[..|events| - 1], events[|events| - 1];
      NextLines(trim, before, Conversation(trim, before), e)
  }

  /** The lines after one event more. */
  function NextLines(trim: string -> string, before: seq<Event>, lines: seq<Message>, e: Event): seq<Message> {
    if e.SetHistory? then Anonymous(e.messages)
    else if e.Clear? then []
    else if e.Transcript? then
      if e.item != "" && e.item == LastItem(before) && UserIsLast(lines) then
        lines[..|lines| - 1] + [Message(User, e.text, lines[|lines| - 1].item)]
      else lines + [Message(User, e.text, e.item)]
    else if e.Reconnect? || e.Teardown? then Anonymous(lines + AnswerLine(trim, before, e))
    else lines + AnswerLine(trim, before, e)
  }

  /** The lists pushed: on every connection, with every list given or cleared,
      and at the end of every answer, before identities are forgotten. */
  function Pushes(trim: string -> string, events: seq<Event>): seq<seq<Message>> {
    if events == [] then []
    else
      var before, e := events[..|events| - 1], events[|events| - 1];
      Pushes(trim, before) + PushesNow(trim, before, e, Conversation(trim, before), Conversation(trim, events))
  }

  /** The list pushed with one event, when there is one. */
  function PushesNow(
      trim: string -> string, before: seq<Event>, e: Event, was: seq<Message>, now: seq<Message>): seq<seq<Message>> {
    if e.Connected? then [was]
    else if e.SetHistory? || e.Clear? then [now]
    else if EndsWith(before, e) then [was + AnswerLine(trim, before, e)]
    else []
  }

  /** The client keeps the conversation its events make. */
  predicate Keeps(trim: string -> string, c: Client, events: seq<Event>) {
    c.history == Conversation(trim, events) && c.pushed == Pushes(trim, events) && c.userItem == LastItem(events)
  }

  // ------------------------------------------------------------ one event

  lemma OneItem(events: seq<Event>, e: Event)
    ensures LastItem(events + [e]) ==
              if e.Transcript? then e.item
              else if e.SetHistory? || e.Clear? || e.Reconnect? || e.Teardown? then "" else LastItem(events)
  {
    assert (events + [e])[..|events|] == events;
  }

  lemma OnePush(trim: string -> string, events: seq<Event>, e: Event)
    ensures Pushes(trim, events + [e]) ==
              Pushes(trim, events)
              + PushesNow(trim, events, e, Conversation(trim, events), Conversation(trim, events + [e]))
  {
    hide PushesNow, Conversation;
    assert (events + [e])[..|events|] == events;
  }

  lemma OneEvent(trim: string -> string, events: seq<Event>, e: Event)
    ensures LastItem(events + [e]) ==
              if e.Transcript? then e.item
              else if e.SetHistory? || e.Clear? || e.Reconnect? || e.Teardown? then "" else LastItem(events)
    ensures Pushes(trim, events + [e]) ==
              Pushes(trim, events)
              + PushesNow(trim, events, e, Conversation(trim, events), Conversation(trim, events + [e]))
    ensures Conversation(trim, events + [e]) == NextLines(trim, events, Conversation(trim, events), e)
  {
    hide PushesNow, Conversation, NextLines, Pushes, LastItem;
    OneItem(events, e);
    OnePush(trim, events, e);
    OneLine(trim, events, e);
  }

  lemma OneLine(trim: string -> string, events: seq<Event>, e: Event)
    ensures Conversation(trim, events + [e]) == NextLines(trim, events, Conversation(trim, events), e)
  {
    hide NextLines;
    assert (events + [e])[..|events|] == events;
  }

  /** What the client files with an event is the line of its answer. */
  lemma FilesTheLine(trim: string -> string, c: Client, events: seq<Event>, e: Event)
    requires Accounts(c, events)
    ensures Ends(trim, c, e) <==> EndsWith(events, e)
    ensures Ends(trim, c, e) ==>
              Filed(c.history, Content(trim, c.units, PlayedBy(c, e))) == c.history + AnswerLine(trim, events, e)
  {
    EndsAsSaid(trim, c, events, e);
    hide Content, EndsWith, Sounds, InFlight, DoneSaid, UnitsSent, LastReport;
    if Ends(trim, c, e) {
      PlayedIsReported(trim, c, events, e);
      EndsOpen(trim, c, e);
    }
  }

  lemma NoLine(trim: string -> string, events: seq<Event>, e: Event, lines: seq<Message>)
    requires !EndsWith(events, e)
    ensures lines + AnswerLine(trim, events, e) == lines
  {
  }

  lemma TranscriptKeeps(trim: string -> string, c: Client, events: seq<Event>, e: Event)
    requires e.Transcript? && Keeps(trim, c, events) && !EndsWith(events, e)
    ensures Keeps(trim, On(trim, c, e), events + [e])
  {
    hide Conversation, Pushes, LastItem, EndsWith;
    OneEvent(trim, events, e);
  }

  lemma ListKeeps(trim: string -> string, c: Client, events: seq<Event>, e: Event)
    requires (e.SetHistory? || e.Clear?) && Keeps(trim, c, events)
    ensures Keeps(trim, On(trim, c, e), events + [e])
  {
    hide Conversation, Pushes, LastItem, EndsWith;
    OneEvent(trim, events, e);
    if e.SetHistory? {
      assert On(trim, c, e).history == Anonymous(e.messages);
    } else {
      assert On(trim, c, e).history == [];
    }
  }

  lemma ForgettingKeeps(trim: string -> string, c: Client, events: seq<Event>, e: Event)
    requires (e.Reconnect? || e.Teardown?) && Keeps(trim, c, events) && Accounts(c, events)
    ensures Keeps(trim, On(trim, c, e), events + [e])
  {
    hide Conversation, Pushes, LastItem, EndsWith, AnswerLine, Content, Filed, Accounts;
    OneEvent(trim, events, e);
    FilesTheLine(trim, c, events, e);
    CloseIs(trim, c);
    if !EndsWith(events, e) {
      NoLine(trim, events, e, c.history);
    }
    hide Close;
  }

  lemma OtherKeeps(trim: string -> string, c: Client, events: seq<Event>, e: Event)
    requires !Rewrites(e) && Keeps(trim, c, events) && Accounts(c, events)
    ensures Keeps(trim, On(trim, c, e), events + [e])
  {
    hide Conversation, Pushes, LastItem, EndsWith, AnswerLine, Content, Filed, Accounts, On, Ends, Gained;
    OneEvent(trim, events, e);
    FilesTheLine(trim, c, events, e);
    OnTells(trim, c, e);
    OnKeepsItem(trim, c, e);
    if !EndsWith(events, e) {
      NoLine(trim, events, e, c.history);
    }
  }

  lemma OnKeepsItem(trim: string -> string, c: Client, e: Event)
    requires !Rewrites(e)
    ensures On(trim, c, e).userItem == c.userItem
    ensures e.Connected? ==> On(trim, c, e).pushed == c.pushed + [c.history] && !Ends(trim, c, e)
  {
    CloseKeepsItem(trim, c);
    CloseKeepsItem(trim, c.(answerDone := true));
    CloseKeepsItem(trim, c.(played := PlayedBy(c, e)));
    hide Close;
  }

  lemma CloseKeepsItem(trim: string -> string, c: Client)
    ensures Close(trim, c).userItem == c.userItem
  {
  }

  /** Over any events: the history is the conversation they make, message for
      message, and the lists pushed are its states. */
  lemma {:induction false} EveryRunKeepsTheConversation(trim: string -> string, events: seq<Event>)
    ensures var c := Run(trim, Fresh(), events); Keeps(trim, c, events) && Accounts(c, events)
  {
    hide Accounts, Keeps, On, Inv, Kept, Answers;
    if events == [] {
      FreshKeeps(trim);
    } else {
      var before, e := events[..|events| - 1], events[|events| - 1];
      var c := Run(trim, Fresh(), before);
      EveryRunKeepsTheConversation(trim, before);
      assert before + [e] == events;
      OnAccounts(trim, c, before, e);
      if e.Transcript? {
        TranscriptEndsNothing(before, e);
        TranscriptKeeps(trim, c, before, e);
      } else if e.SetHistory? || e.Clear? {
        ListKeeps(trim, c, before, e);
      } else if e.Reconnect? || e.Teardown? {
        ForgettingKeeps(trim, c, before, e);
      } else {
        OtherKeeps(trim, c, before, e);
      }
    }
  }

  lemma FreshKeeps(trim: string -> string)
    ensures Keeps(trim, Fresh(), []) && Accounts(Fresh(), [])
  {
  }

  lemma TranscriptEndsNothing(events: seq<Event>, e: Event)
    requires e.Transcript?
    ensures !EndsWith(events, e)
  {
    assert (events + [e])[..|events|] == events;
  }

  // ------------------------------------------------------------ no line is lost

  /** The same line, its identity aside. */
  predicate SameLine(a: Message, b: Message) {
    a.role == b.role && a.content == b.content
  }

  /** No event but a new list takes a line away: the earlier ones stay as they
      are, and the last one keeps its role; only a transcript of its own turn
      gives it another text, and only while it is the user's. */
  lemma LinesStay(trim: string -> string, events: seq<Event>, e: Event)
    requires !e.SetHistory? && !e.Clear?
    ensures var was, now := Conversation(trim, events), Conversation(trim, events + [e]);
            && |was| <= |now| <= |was| + 1
            && (forall p :: 0 <= p < |was| ==> now[p].role == was[p].role)
            && (forall p :: 0 <= p < |was| && !SameLine(was[p], now[p]) ==>
                  p == |was| - 1 == |now| - 1 && was[p].role == User && e.Transcript?)
  {
    hide EndsWith, Content;
    OneLine(trim, events, e);
  }

  predicate NoNewList(events: seq<Event>, from: nat) {
    forall i :: from <= i < |events| ==> !events[i].SetHistory? && !events[i].Clear?
  }

  /** Event i starts a line of the user's. */
  predicate StartsLine(trim: string -> string, events: seq<Event>, i: nat)
    requires i < |events|
  {
    events[i].Transcript? && |Conversation(trim, events[..i + 1])| == |Conversation(trim, events[..i])| + 1
  }

  /** Event j is a transcript, and the last one while line p was the last. */
  predicate LastSaid(trim: string -> string, events: seq<Event>, p: nat, j: int) {
    && 0 <= j < |events| && events[j].Transcript? && |Conversation(trim, events[..j + 1])| == p + 1
    && forall k :: j < k < |events| && events[k].Transcript? ==> |Conversation(trim, events[..k + 1])| > p + 1
  }

  lemma Prefixes(events: seq<Event>, n: nat)
    requires n <= |events|
    ensures forall k {:trigger events[..k]} :: 0 <= k <= n ==> events[..n][..k] == events[..k]
  {
  }

  /** A turn that was transcribed keeps its place, until a new list is given,
      and its line is the last of its transcripts. */
  lemma {:induction false} EveryTurnHasItsLine(trim: string -> string, events: seq<Event>, i: nat) returns (j: int)
    requires i < |events| && StartsLine(trim, events, i) && NoNewList(events, i)
    ensures var p, lines := |Conversation(trim, events[..i])|, Conversation(trim, events);
            && p < |lines| && lines[p].role == User
            && i <= j && LastSaid(trim, events, p, j) && lines[p].content == events[j].text
  {
    hide Conversation;
    var p := |Conversation(trim, events[..i])|;
    var n := |events| - 1;
    var before, e := events[..n], events[n];
    assert before + [e] == events && events[..n + 1] == events;
    OneLine(trim, before, e);
    if i == n {
      j := n;
    } else {
      assert before[..i] == events[..i] && before[..i + 1] == events[..i + 1];
      j := EveryTurnHasItsLine(trim, before, i);
      LinesStay(trim, before, e);
      Prefixes(events, n);
      if e.Transcript? && |Conversation(trim, events)| == p + 1 {
        j := n;
      }
    }
  }
}
