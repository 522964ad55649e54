/** The command listener of `msgWatcher` (bot.go:28-117): every chat event
    that mentions the bot first is read as a command and answered in the
    same conversation. */
module Commands {
  import opened Wrappers
  import opened Structs
  import opened SlackStructs
  import opened Strings
  import opened Birthday
  import opened SlackApi

  const CommandHi: string := "hi"
  const CommandBirthday: string := "birthday"
  const CommandShutdown: string := "turnoff"

  /** What the listener reads: a chat event at an instant, a failed read
      (`transient` for timeouts and temporary network errors), or the
      cancellation of the watcher. */
  datatype Event = Received(msg: Message, now: int) | ReadFailed(error: string, transient: bool) | Cancelled

  /** An answer: the incoming message sent back with a new text. */
  datatype Reply = Reply(to: Message, text: MessageText)

  /** What one event does: answer and listen on, or answer and stop. */
  datatype Step = Continue(replies: seq<Reply>) | Stop(replies: seq<Reply>)

  /** The mention that addresses the bot. */
  function Mention(botUID: string): (s: string)
    ensures |s| > 0
  {
    "<@" + botUID + ">"
  }

  /** The command in a message text: when the text starts with the mention,
      the first mention removed, surrounding spaces trimmed, lower-cased. */
  function CommandOf(botUID: string, text: string): Option<string> {
    var mention := Mention(botUID);
    if HasPrefix(text, mention) then Some(ToLower(Trim(ReplaceFirst(text, mention, ""), ' '))) else None
  }

  /** The mention that is removed is the leading one. */
  lemma CommandAfterMention(botUID: string, text: string)
    ensures CommandOf(botUID, text).Some? <==> HasPrefix(text, Mention(botUID))
    ensures CommandOf(botUID, text).Some? ==>
              CommandOf(botUID, text).value == ToLower(Trim(text[|Mention(botUID)|..], ' '))
  {
    if HasPrefix(text, Mention(botUID)) {
      ReplacePrefix(text, Mention(botUID));
    }
  }

  /** The answer to `birthday` (bot.go:69-93): a profile error, a parse
      error, the days left, or congratulations. */
  function BirthdayAnswer(api: Platform, msgs: Messages, m: Message, now: int): MessageText {
    match GetUserProfile(api, m.user)
    case Err(_) => Formatted(msgs.profileError, [Str(m.user)])
    case Ok(user) =>
      var d := GetUserBDInfo(now, user.skype);
      if d.err.Some? then Formatted(msgs.bdParseError, [Str(user.id)])
      else if d.days > 0 then Formatted(msgs.personalIncoming, [Str(user.id), Int(d.days)])
      else Formatted(msgs.personalToday, [Str(user.id)])
  }

  /** Which template `birthday` picks: `profile_error` when the profile can't
      be read, `bd_parse_error` when the field does not parse,
      `personal_incoming` with the days left when they are positive and
      `personal_today` on the birthday itself; always about the sender. */
  lemma BirthdayTemplates(api: Platform, msgs: Messages, m: Message, now: int)
    ensures var a := BirthdayAnswer(api, msgs, m, now);
            var r := GetUserProfile(api, m.user);
            && a.Formatted?
            && |a.args| > 0 && a.args[0] == Str(m.user)
            && (r.Err? ==> a == Formatted(msgs.profileError, [Str(m.user)]))
            && (r.Ok? ==>
                  var d := GetUserBDInfo(now, r.value.skype);
                  && (d.err.Some? ==> a == Formatted(msgs.bdParseError, [Str(m.user)]))
                  && (d.err.None? && d.days > 0 ==> a == Formatted(msgs.personalIncoming, [Str(m.user), Int(d.days)]))
                  && (d.err.None? && d.days == 0 ==> a == Formatted(msgs.personalToday, [Str(m.user)])))
  {
  }

  /** How `birthday` is answered: a message and the instant to the text. */
  type Answerer = (Message, int) -> MessageText

  function BirthdayAnswerer(api: Platform, msgs: Messages): Answerer {
    (m, now) => BirthdayAnswer(api, msgs, m, now)
  }

  /** How the listener treats one chat event (bot.go:49-113). Messages of
      another type, messages that do not start with the mention and
      unknown commands are ignored. */
  function Handle(answer: Answerer, c: Config, msgs: Messages, m: Message, now: int): Step {
    if m.msgType != TypeMessage then Continue([])
    else
      match CommandOf(c.botUID, m.text)
      case None => Continue([])
      case Some(command) => Respond(answer, c, msgs, m, now, command)
  }

  /** The answer to one command (the `switch` of bot.go:60-112). */
  function Respond(answer: Answerer, c: Config, msgs: Messages, m: Message, now: int, command: string): Step {
    if command == CommandHi then Continue([Reply(m, Literal("<@" + m.user + "> hello!"))])
    else if command == CommandBirthday then Continue([Reply(m, answer(m, now))])
    else if command == CommandShutdown then
      if m.user != c.managerID then Continue([Reply(m, Literal(msgs.shutdownError))])
      else Stop(if msgs.shutdownAnnounce != "" then [Reply(m, Literal(msgs.shutdownAnnounce))] else [])
    else Continue([])
  }

  /** What a command is answered with: the three commands and nothing else
      are answered; only the manager's `turnoff` stops, with an announcement
      only when there is one, and anyone else's is refused; there is at most
      one answer and it goes back to the message it answers. */
  lemma RespondCases(answer: Answerer, c: Config, msgs: Messages, m: Message, now: int, command: string)
    ensures var s := Respond(answer, c, msgs, m, now, command);
            && (s.replies != [] || s.Stop? ==>
                  command == CommandHi || command == CommandBirthday || command == CommandShutdown)
            && (s.Stop? <==> command == CommandShutdown && m.user == c.managerID)
            && (s.Stop? ==> (s.replies == [] <==> msgs.shutdownAnnounce == ""))
            && (command == CommandShutdown && m.user != c.managerID ==>
                  s == Continue([Reply(m, Literal(msgs.shutdownError))]))
            && |s.replies| <= 1
            && (forall r :: r in s.replies ==> r.to == m)
  {
  }

  /** The listener answers only messages of type `message` that start with
      the mention and carry one of the three commands; only the manager's
      `turnoff` stops it, anyone else's is refused; each event is answered at
      most once, in the conversation of the message it answers. */
  lemma HandleCases(answer: Answerer, c: Config, msgs: Messages, m: Message, now: int)
    ensures var s := Handle(answer, c, msgs, m, now);
            var command := CommandOf(c.botUID, m.text);
            var asked := m.msgType == TypeMessage && command == Some(CommandShutdown);
            && (s.replies != [] || s.Stop? ==>
                  && m.msgType == TypeMessage && HasPrefix(m.text, Mention(c.botUID))
                  && (command == Some(CommandHi) || command == Some(CommandBirthday) || command == Some(CommandShutdown)))
            && (s.Stop? <==> asked && m.user == c.managerID)
            && (s.Stop? ==> (s.replies == [] <==> msgs.shutdownAnnounce == ""))
            && (asked && m.user != c.managerID ==> s == Continue([Reply(m, Literal(msgs.shutdownError))]))
            && |s.replies| <= 1
            && (forall r :: r in s.replies ==> r.to == m)
  {
    CommandAfterMention(c.botUID, m.text);
    var command := CommandOf(c.botUID, m.text);
    if m.msgType == TypeMessage && command.Some? {
      assert Handle(answer, c, msgs, m, now) == Respond(answer, c, msgs, m, now, command.value);
      RespondCases(answer, c, msgs, m, now, command.value);
    } else {
      assert Handle(answer, c, msgs, m, now) == Continue([]);
    }
  }

  /** The outcome of listening to a run of events. */
  datatype Listening = Listening(err: Outcome, replies: seq<Reply>, stopped: bool)

  /** The listener over `events`: a cancellation or the manager's `turnoff`
      ends it without error, a failed read that is not transient ends it with
      that error, and anything else is answered and the listener goes on. A
      run that ends without any of these is still listening. */
  function Listen(answer: Answerer, c: Config, msgs: Messages, events: seq<Event>): (l: Listening)
    ensures l.err.Fail? ==> l.stopped
    ensures l.err.Fail? ==> exists i :: 0 <= i < |events| && events[i] == ReadFailed(l.err.error, false)
    decreases |events|
  {
    if events == [] then Listening(Pass, [], false)
    else
      match events[0]
      case Cancelled => Listening(Pass, [], true)
      case ReadFailed(e, transient) =>
        if transient then
          var rest := Listen(answer, c, msgs, events[1..]);
          assert forall i :: 0 <= i < |events[1..]| ==> events[1..][i] == events[i + 1];
          rest
        else Listening(Fail(e), [], true)
      case Received(m, now) =>
        match Handle(answer, c, msgs, m, now)
        case Stop(replies) => Listening(Pass, replies, true)
        case Continue(replies) =>
          var rest := Listen(answer, c, msgs, events[1..]);
          assert forall i :: 0 <= i < |events[1..]| ==> events[1..][i] == events[i + 1];
          rest.(replies := replies + rest.replies)
  }

  /** Once the listener has stopped, later events change nothing. */
  lemma {:induction false} NothingAfterStop(answer: Answerer, c: Config, msgs: Messages, events: seq<Event>, more: seq<Event>)
    requires Listen(answer, c, msgs, events).stopped
    ensures Listen(answer, c, msgs, events + more) == Listen(answer, c, msgs, events)
    decreases |events|
  {
    assert (events + more)[0] == events[0];
    assert (events + more)[1..] == events[1..] + more;
    match events[0]
    case Cancelled =>
    case ReadFailed(e, transient) =>
      if transient {
        NothingAfterStop(answer, c, msgs, events[1..], more);
      }
    case Received(m, now) =>
      if Handle(answer, c, msgs, m, now).Continue? {
        NothingAfterStop(answer, c, msgs, events[1..], more);
      }
  }

  /** The messages among `events`, in order. */
  function Inbox(events: seq<Event>): (inbox: seq<Message>)
    ensures |inbox| <= |events|
    ensures forall m :: m in inbox ==> exists i, now :: 0 <= i < |events| && events[i] == Received(m, now)
  {
    if events == [] then []
    else
      var rest := Inbox(events[1..]);
      assert forall m :: m in rest ==> exists i, now :: 0 <= i < |events| && events[i] == Received(m, now) by {
        forall m | m in rest
          ensures exists i, now :: 0 <= i < |events| && events[i] == Received(m, now)
        {
          var i, now :| 0 <= i < |events[1..]| && events[1..][i] == Received(m, now);
          assert events[i + 1] == Received(m, now);
        }
      }
      match events[0]
      case Received(m, _) => [m] + rest
      case _ => rest
  }

  /** Every answer goes back to a message the listener received, at most
      one per message. */
  lemma {:induction false} RepliesAnswerReceived(answer: Answerer, c: Config, msgs: Messages, events: seq<Event>)
    ensures var l := Listen(answer, c, msgs, events);
            && |l.replies| <= |Inbox(events)|
            && forall r :: r in l.replies ==> r.to in Inbox(events)
    decreases |events|
  {
    if events != [] {
      RepliesAnswerReceived(answer, c, msgs, events[1..]);
      if events[0].Received? {
        ReceivedStep(answer, c, msgs, events);
      }
    }
  }

  /** One received message adds at most its own answer. */
  lemma ReceivedStep(answer: Answerer, c: Config, msgs: Messages, events: seq<Event>)
    requires events != [] && events[0].Received?
    ensures var l := Listen(answer, c, msgs, events);
            var rest := Listen(answer, c, msgs, events[1..]);
            var s := Handle(answer, c, msgs, events[0].msg, events[0].now);
            && Inbox(events) == [events[0].msg] + Inbox(events[1..])
            && l.replies == s.replies + (if s.Continue? then rest.replies else [])
            && |s.replies| <= 1
            && (forall r :: r in s.replies ==> r.to == events[0].msg)
  {
    HandleCases(answer, c, msgs, events[0].msg, events[0].now);
  }

  /** One chat event, with the profile read only for `birthday`. */
  method HandleEvent(api: Platform, c: Config, msgs: Messages, m: Message, now: int) returns (step: Step)
    ensures step == Handle(BirthdayAnswerer(api, msgs), c, msgs, m, now)
  {
    if m.msgType != TypeMessage {
      return Continue([]);
    }
    if !HasPrefix(m.text, Mention(c.botUID)) {
      return Continue([]);
    }
    var command := ToLower(Trim(ReplaceFirst(m.text, Mention(c.botUID), ""), ' '));
    if command == CommandHi {
      step := Continue([Reply(m, Literal("<@" + m.user + "> hello!"))]);
    } else if command == CommandBirthday {
      step := Continue([Reply(m, BirthdayAnswer(api, msgs, m, now))]);
    } else if command == CommandShutdown {
      if m.user != c.managerID {
        step := Continue([Reply(m, Literal(msgs.shutdownError))]);
      } else if msgs.shutdownAnnounce != "" {
        step := Stop([Reply(m, Literal(msgs.shutdownAnnounce))]);
      } else {
        step := Stop([]);
      }
    } else {
      step := Continue([]);
    }
  }

  /** `msgWatcher`: the read loop. */
  method MsgWatcher(api: Platform, c: Config, msgs: Messages, events: seq<Event>) returns (err: Outcome, replies: seq<Reply>)
    ensures err == Listen(BirthdayAnswerer(api, msgs), c, msgs, events).err
    ensures replies == Listen(BirthdayAnswerer(api, msgs), c, msgs, events).replies
  {
    ghost var answer := BirthdayAnswerer(api, msgs);
    replies := [];
    var i := 0;
    while i < |events|
      invariant 0 <= i <= |events|
      invariant var l := Listen(answer, c, msgs, events[i..]);
                Listen(answer, c, msgs, events) == l.(replies := replies + l.replies)
    {
      var rest := events[i..];
      assert rest[1..] == events[i + 1..];
      var e := events[i];
      i := i + 1;
      match e
      case Cancelled =>
        return Pass, replies;
      case ReadFailed(e, transient) =>
        if !transient {
          return Fail(e), replies;
        }
      case Received(m, now) =>
        var step := HandleEvent(api, c, msgs, m, now);
        if step.Stop? {
          return Pass, replies + step.replies;
        }
        replies := replies + step.replies;
    }
    return Pass, replies;
  }
}
