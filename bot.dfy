/**
 * The bot's conversation logic: the commands, the per-user conversation states that plain
 * texts are read in, the inline-keyboard callback of `/delete` and `/edit`, and how the
 * replies to one update are packed into Telegram messages.
 *
 * Every handler is a method on the `Api` object, proved equal to a step function of the
 * store; the lemmas about the step functions state the conversation rules.
 */
module Bot {
  import opened Wrappers
  import opened Strings
  import opened KeyValue
  import opened Text
  import opened Sender
  import opened Api

  /** The sender of an update, with the fields the handlers read. */
  datatype User = User(id: U64, firstName: string, username: Option<string>)

  /** What a handler did: the replies for the chat, the new store, the messages it queued itself. */
  datatype Outcome = Outcome(replies: seq<string>, store: Store, sent: seq<Message>)

  /** `set_user_state`: the user's state reads back as `s`, the empty one as none. */
  function SetState(st: Store, u: U64, s: string): (r: Store)
    ensures UserState(r, u) == if s == "" then None else Some(s)
  {
    UserStateAfterSet(st, u, s);
    st.Put(StateKey(u), TextValue(s))
  }

  lemma AppendNothing<T>(s: seq<T>)
    ensures s + [] == s
  {
  }

  /** A write to any other key leaves a user's conversation state as it was. */
  lemma StateAfterOtherPut(st: Store, u: U64, k: string, v: Value)
    requires k != StateKey(u)
    ensures UserState(st.Put(k, v), u) == UserState(st, u)
  {
  }

  // ---------------------------------------------------------------------------
  // Commands

  datatype Command =
    | AdminCreate
    | AdminDelete
    | AdminScoreboard
    | AdminMessageAll
    | AdminEdit
    | UserScore
    | UserContact(topic: Option<string>)
    | UserHelp
    | UserRules
    | UserTasks
    | UserCode
    | UserSecretFlag
    | Unknown

  /** The exact texts that name a command other than `/contact`. */
  const COMMAND_WORDS: set<string> := {
    "/start", "/create", "/delete", "/edit", "/message", "/board",
    "/help", "/code", "/tasks", "/rules", "/score", "/s3cr3t_comm4nd"
  }

  /**
   * `From<&str> for BotCommands`: anything starting with `/contact` is a contact request,
   * with the trimmed piece after the only '_' as its topic; every other command must match
   * exactly.
   */
  function ParseCommand(text: string): (c: Command)
    ensures c.UserContact? <==> StartsWith(text, "/contact")
    ensures c == Unknown <==> !StartsWith(text, "/contact") && text !in COMMAND_WORDS
    ensures c == UserHelp <==> text == "/start" || text == "/help"
  {
    if StartsWith(text, "/contact") then
      var parts := Split(text, '_');
      UserContact(if |parts| == 2 then Some(Trim(parts[1])) else None)
    else if text == "/start" then UserHelp
    else if text == "/create" then AdminCreate
    else if text == "/delete" then AdminDelete
    else if text == "/edit" then AdminEdit
    else if text == "/message" then AdminMessageAll
    else if text == "/board" then AdminScoreboard
    else if text == "/help" then UserHelp
    else if text == "/code" then UserCode
    else if text == "/tasks" then UserTasks
    else if text == "/rules" then UserRules
    else if text == "/score" then UserScore
    else if text == "/s3cr3t_comm4nd" then UserSecretFlag
    else Unknown
  }

  /** The text a user types for each command; `/contact_<id>` is the link under every task. */
  function CommandText(c: Command): string {
    match c
    case AdminCreate => "/create"
    case AdminDelete => "/delete"
    case AdminScoreboard => "/board"
    case AdminMessageAll => "/message"
    case AdminEdit => "/edit"
    case UserScore => "/score"
    case UserContact(topic) => if topic.Some? then "/contact_" + topic.value else "/contact"
    case UserHelp => "/help"
    case UserRules => "/rules"
    case UserTasks => "/tasks"
    case UserCode => "/code"
    case UserSecretFlag => "/s3cr3t_comm4nd"
    case Unknown => "/"
  }

  /** Every command is read back from its text; a topic survives when it is trimmed and has no '_'. */
  lemma ParseCommandText(c: Command)
    requires c.UserContact? && c.topic.Some? ==> '_' !in c.topic.value && Trimmed(c.topic.value)
    ensures ParseCommand(CommandText(c)) == c
  {
    match c
    case UserContact(topic) =>
      ContactTextParses(topic);
    case AdminMessageAll =>
      assert !StartsWith("/message", "/contact") by {
        assert "/message"[1] == 'm' && "/contact"[1] == 'c';
        assert "/message"[..8][1] == "/message"[1];
      }
    case UserSecretFlag =>
      assert !StartsWith("/s3cr3t_comm4nd", "/contact") by {
        assert "/s3cr3t_comm4nd"[1] == 's' && "/contact"[1] == 'c';
        assert "/s3cr3t_comm4nd"[..8][1] == "/s3cr3t_comm4nd"[1];
      }
    case AdminCreate =>
    case AdminDelete =>
    case AdminScoreboard =>
    case AdminEdit =>
    case UserScore =>
    case UserHelp =>
    case UserRules =>
    case UserTasks =>
    case UserCode =>
    case Unknown =>
  }

  /** The contact link with a trimmed, '_'-free topic reads back as that topic. */
  lemma ContactTextParses(topic: Option<string>)
    requires topic.Some? ==> '_' !in topic.value && Trimmed(topic.value)
    ensures ParseCommand(CommandText(UserContact(topic))) == UserContact(topic)
  {
    var text := CommandText(UserContact(topic));
    assert text[..8] == "/contact";
    if topic.Some? {
      var t := topic.value;
      assert text == "/contact" + ['_'] + t;
      SplitAfterPiece("/contact", '_', t);
      assert Split(t, '_') == [t];
    } else {
      assert Split(text, '_') == [text];
    }
  }

  /** The state `/contact` leaves: `contact_<topic>` with a topic, `contact` without. */
  function ContactState(topic: Option<string>): string {
    if topic.Some? then "contact_" + topic.value else "contact"
  }

  /** The task named in a contact state (`get_task` of the piece after '_'), when there are exactly two pieces. */
  function Topic(st: Store, s: string): (r: Option<Task>)
    ensures '_' !in s ==> r.None?
    ensures r.Some? ==> |Split(s, '_')| == 2 && TaskKey(Split(s, '_')[1]) in st.data
  {
    SplitSingle(s, '_');
    var parts := Split(s, '_');
    if |parts| == 2 then st.ReadTask(TaskKey(parts[1])) else None
  }

  /**
   * A contact state is recognised as one, and the topic it was opened with is the task the
   * organisers are told about (none without a topic).
   */
  lemma ContactStateTopic(st: Store, topic: Option<string>)
    requires topic.Some? ==> '_' !in topic.value
    ensures StartsWith(ContactState(topic), "contact")
    ensures Topic(st, ContactState(topic)) == if topic.Some? then st.ReadTask(TaskKey(topic.value)) else None
  {
    var s := ContactState(topic);
    assert s[..7] == "contact";
    if topic.Some? {
      assert s == "contact" + ['_'] + topic.value;
      SplitAfterPiece("contact", '_', topic.value);
      assert Split(topic.value, '_') == [topic.value];
    } else {
      assert Split(s, '_') == [s];
    }
  }

  /** The state the edit callback leaves, `edit_<id>`, names the task again in `process_data`. */
  lemma EditStateNamesTask(id: string)
    requires '_' !in id
    ensures StartsWith("edit_" + id, "edit_")
    ensures LastSegment("edit_" + id, '_') == id
  {
    assert ("edit_" + id)[..5] == "edit_";
    assert "edit_" + id == "edit" + ['_'] + id;
    LastSegmentAfterSeparator("edit", '_', id);
  }

  // ---------------------------------------------------------------------------
  // process_command

  /** The keyboard of `/delete` and `/edit`: one row per task, its name shown, its id as callback data. */
  function Chooser(tasks: seq<Task>): (k: Markup)
    ensures |k.rows| == |tasks|
    ensures forall i :: 0 <= i < |tasks| ==> k.rows[i] == [Button(tasks[i].name, tasks[i].id)]
  {
    InlineKeyboard(seq(|tasks|, i requires 0 <= i < |tasks| => [Button(tasks[i].name, tasks[i].id)]))
  }

  /** The message with the keyboard over every visible task, sent to the admin's private chat. */
  function ChooseMessage(st: Store, u: U64): (m: Message)
    ensures m.chat == AsI64(u) && m.text == CHOOSE && m.markup.Some?
    ensures |m.markup.value.rows| == |TaskList(st, 0)|
    ensures forall i :: 0 <= i < |m.markup.value.rows| ==>
      !TaskList(st, 0)[i].hidden && m.markup.value.rows[i] == [Button(TaskList(st, 0)[i].name, TaskList(st, 0)[i].id)]
  {
    TaskListProperties(st, 0);
    assert forall i :: 0 <= i < |TaskList(st, 0)| ==> TaskList(st, 0)[i] in TaskList(st, 0);
    FromTextWithMarkup(AsI64(u), CHOOSE, Chooser(TaskList(st, 0)))
  }

  /** The scoreboard text: one line per entry, numbered from 1. */
  function BoardText(board: seq<(Profile, nat)>): (r: string)
    ensures r == "" <==> board == []
    ensures board != [] ==> EndsWith(r, "\n")
    decreases |board|
  {
    if board == [] then ""
    else
      var last := board[|board| - 1];
      BoardText(board[..|board| - 1]) + FormatScoreBoard(|board|, last.0, last.1)
  }

  /** The board text opens with the line of the first entry, numbered 1. */
  lemma {:induction false} BoardTextLeader(board: seq<(Profile, nat)>)
    requires board != []
    ensures StartsWith(BoardText(board), FormatScoreBoard(1, board[0].0, board[0].1))
    decreases |board|
  {
    var line := FormatScoreBoard(1, board[0].0, board[0].1);
    if |board| == 1 {
      assert BoardText(board) == BoardText(board[..0]) + line;
      assert board[..0] == [];
    } else {
      var init := board[..|board| - 1];
      BoardTextLeader(init);
      var last := board[|board| - 1];
      var whole := BoardText(init) + FormatScoreBoard(|board|, last.0, last.1);
      assert whole[..|line|] == BoardText(init)[..|line|];
    }
  }

  /** The replies of `/tasks`: one per listed task, or the all-solved note when there is none. */
  function TaskReplies(tasks: seq<Task>): (rs: seq<string>)
    ensures tasks == [] ==> rs == [ALL_SOLVED]
    ensures tasks != [] ==> |rs| == |tasks| && forall i :: 0 <= i < |tasks| ==> rs[i] == FormatTaskUser(tasks[i])
  {
    if tasks == [] then [ALL_SOLVED] else seq(|tasks|, i requires 0 <= i < |tasks| => FormatTaskUser(tasks[i]))
  }

  /** The state tag a command leaves: the four admin conversations for an admin, a contact state for anyone. */
  function CommandState(cmd: Command, admin: bool): Option<string> {
    match cmd
    case AdminCreate => if admin then Some("create") else None
    case AdminDelete => if admin then Some("delete") else None
    case AdminEdit => if admin then Some("edit") else None
    case AdminMessageAll => if admin then Some("message") else None
    case UserContact(topic) => Some(ContactState(topic))
    case _ => None
  }

  predicate AdminOnly(cmd: Command) {
    cmd.AdminCreate? || cmd.AdminDelete? || cmd.AdminEdit? || cmd.AdminMessageAll? || cmd.AdminScoreboard?
  }

  predicate InGameOnly(cmd: Command) {
    cmd.UserScore? || cmd.UserTasks? || cmd.UserCode? || cmd.UserSecretFlag?
  }

  /**
   * `process_command` on a store. `now` is the clock, `secret` the environment variable
   * `BOTFLAG` (none when unset), `documentOk` whether sending the source file succeeded.
   */
  function CommandStep(st: Store, c: Config, u: U64, text: string, now: nat, secret: Option<string>, documentOk: bool): Outcome {
    var admin := IsAdmin(c, u);
    var play := CanProcessCommand(c, u, now);
    match ParseCommand(text)
    case AdminCreate =>
      if admin then Outcome([CREATE_TASK], SetState(st, u, "create"), []) else Outcome([DENIED], st, [])
    case AdminDelete =>
      if admin then Outcome([], SetState(st, u, "delete"), [ChooseMessage(st, u)]) else Outcome([DENIED], st, [])
    case AdminEdit =>
      if admin then Outcome([], SetState(st, u, "edit"), [ChooseMessage(st, u)]) else Outcome([DENIED], st, [])
    case AdminScoreboard =>
      Outcome([if admin then BoardText(Scoreboard(st, c)) else DENIED], st, [])
    case AdminMessageAll =>
      if admin then Outcome([MESSAGE_TEXT], SetState(st, u, "message"), []) else Outcome([DENIED], st, [])
    case UserScore =>
      Outcome([if play then FormatScore(ScoreOf(st, c, u).0, ScoreOf(st, c, u).1) else NOT_YET], st, [])
    case UserContact(topic) =>
      Outcome([CONTACT_TEXT], SetState(st, u, ContactState(topic)), [])
    case UserHelp => Outcome([HELP_TEXT], st, [])
    case UserRules => Outcome([RULES_TEXT], st, [])
    case UserTasks =>
      Outcome(if play then TaskReplies(TaskList(st, u)) else [NOT_YET], st, [])
    case UserCode =>
      Outcome(if !play then [NOT_YET] else if documentOk then [] else [CODE_TEXT], st, [])
    case UserSecretFlag =>
      Outcome([if play then secret.GetOr(UNKNOWN_TEXT) else NOT_YET], st, [])
    case Unknown => Outcome([UNKNOWN_TEXT], st, [])
  }

  /**
   * A command writes nothing but the sender's conversation state; outside the admin group
   * it can only open a contact conversation, and other users' states never move.
   */
  lemma CommandStepState(st: Store, c: Config, u: U64, text: string, now: nat, secret: Option<string>, documentOk: bool)
    ensures var o := CommandStep(st, c, u, text, now, secret, documentOk);
      var tag := CommandState(ParseCommand(text), IsAdmin(c, u));
      && o.store == (if tag.Some? then SetState(st, u, tag.value) else st)
      && UserState(o.store, u) == (if tag.Some? then tag else UserState(st, u))
      && (tag.Some? && !IsAdmin(c, u) ==> StartsWith(tag.value, "contact"))
      && (forall v: U64 :: v != u ==> UserState(o.store, v) == UserState(st, v))
  {
    var tag := CommandState(ParseCommand(text), IsAdmin(c, u));
    if tag.Some? {
      UserStateAfterSet(st, u, tag.value);
      if ParseCommand(text).UserContact? {
        assert ContactState(ParseCommand(text).topic)[..7] == "contact";
      }
    }
  }

  /**
   * The admin commands answer DENIED to everyone else and change nothing; the game commands
   * answer NOT_YET outside the event window to players who are neither testers nor admins.
   */
  lemma CommandGates(st: Store, c: Config, u: U64, text: string, now: nat, secret: Option<string>, documentOk: bool)
    ensures AdminOnly(ParseCommand(text)) && !IsAdmin(c, u) ==>
      CommandStep(st, c, u, text, now, secret, documentOk) == Outcome([DENIED], st, [])
    ensures InGameOnly(ParseCommand(text)) && !(c.eventStart < now < c.eventEnd) && !IsTestUser(c, u) && !IsAdmin(c, u) ==>
      CommandStep(st, c, u, text, now, secret, documentOk) == Outcome([NOT_YET], st, [])
    ensures ParseCommand(text).UserSecretFlag? && CanProcessCommand(c, u, now) && secret.Some? ==>
      CommandStep(st, c, u, text, now, secret, documentOk).replies == [secret.value]
  {
  }

  /** The `for` loop of `/board` that concatenates the numbered lines. */
  method BoardMessage(board: seq<(Profile, nat)>) returns (msg: string)
    ensures msg == BoardText(board)
  {
    msg := "";
    for i := 0 to |board|
      invariant msg == BoardText(board[..i])
    {
      assert board[..i + 1][..i] == board[..i];
      var entry := board[i];
      msg := msg + FormatScoreBoard(i + 1, entry.0, entry.1);
    }
    assert board[..|board|] == board;
  }

  /** `process_command` */
  method ProcessCommand(api: Api, u: U64, text: string, now: nat, secret: Option<string>, documentOk: bool)
    returns (replies: seq<string>)
    requires api.Valid()
    modifies api
    ensures api.Valid()
    ensures replies == CommandStep(old(api.store), api.config, u, text, now, secret, documentOk).replies
    ensures api.store == CommandStep(old(api.store), api.config, u, text, now, secret, documentOk).store
    ensures api.outbox == old(api.outbox) + CommandStep(old(api.store), api.config, u, text, now, secret, documentOk).sent
  {
    AppendNothing(api.outbox);
    var admin := IsAdmin(api.config, u);
    var play := CanProcessCommand(api.config, u, now);
    match ParseCommand(text)
    case AdminCreate =>
      if admin {
        api.SetUserState(u, "create");
        replies := [CREATE_TASK];
      } else {
        replies := [DENIED];
      }
    case AdminDelete =>
      if admin {
        replies := Choose(api, u, "delete");
      } else {
        replies := [DENIED];
      }
    case AdminEdit =>
      if admin {
        replies := Choose(api, u, "edit");
      } else {
        replies := [DENIED];
      }
    case AdminScoreboard =>
      if admin {
        var board := api.GetScoreboard();
        var msg := BoardMessage(board);
        replies := [msg];
      } else {
        replies := [DENIED];
      }
    case AdminMessageAll =>
      if admin {
        api.SetUserState(u, "message");
        replies := [MESSAGE_TEXT];
      } else {
        replies := [DENIED];
      }
    case UserScore =>
      if !play {
        replies := [NOT_YET];
      } else {
        var place, score := api.GetScore(u);
        replies := [FormatScore(place, score)];
      }
    case UserContact(topic) =>
      api.SetUserState(u, ContactState(topic));
      replies := [CONTACT_TEXT];
    case UserHelp =>
      replies := [HELP_TEXT];
    case UserRules =>
      replies := [RULES_TEXT];
    case UserTasks =>
      if !play {
        replies := [NOT_YET];
      } else {
        var tasks := api.ListTasks(u);
        replies := TaskReplies(tasks);
      }
    case UserCode =>
      replies := if !play then [NOT_YET] else if documentOk then [] else [CODE_TEXT];
    case UserSecretFlag =>
      replies := [if play then secret.GetOr(UNKNOWN_TEXT) else NOT_YET];
    case Unknown =>
      replies := [UNKNOWN_TEXT];
  }

  /** The shared body of `/delete` and `/edit` for an admin: the task keyboard, then the state. */
  method Choose(api: Api, u: U64, tag: string) returns (replies: seq<string>)
    requires api.Valid()
    modifies api
    ensures api.Valid()
    ensures replies == []
    ensures api.store == SetState(old(api.store), u, tag)
    ensures api.outbox == old(api.outbox) + [ChooseMessage(old(api.store), u)]
  {
    var tasks := api.ListTasks(0);
    api.SendMessageWithMarkup(AsI64(u), CHOOSE, Chooser(tasks));
    api.SetUserState(u, tag);
    replies := [];
  }

  // ---------------------------------------------------------------------------
  // process_data

  /** How a flag solver is named to the organisers: first name, then the username or the id. */
  function SolverName(user: User): (r: string)
    ensures StartsWith(r, user.firstName + " (") && EndsWith(r, ")") && |r| > |user.firstName| + 2
    ensures r[|user.firstName| + 2] == '@' <==> user.username.Some?
  {
    var head := user.firstName + " (";
    var tail := match user.username
      case None => NatToString(user.id) + ")"
      case Some(name) => "@" + name + ")";
    var r := head + tail;
    assert r[..|head|] == head && r[|head|] == tail[0];
    r
  }

  /** How a contact message is signed: the username, or the id when there is none. */
  function ContactName(user: User): (r: string)
    ensures user.username.Some? ==> r == user.username.value
    ensures user.username.None? ==> ParseU64(r) == Some(user.id)
  {
    ParseNatToString(user.id);
    user.username.GetOr(NatToString(user.id))
  }

  /** No conversation: the text is a flag attempt. */
  function SubmitStep(st: Store, c: Config, user: User, text: string): Outcome {
    var (r, st') := Submit(st, user.id, text);
    match r
    case NotAFlag => Outcome([UNKNOWN_TEXT], st', [])
    case AlreadySolved => Outcome([ALREADY_SOLVED], st', [])
    case Solved(name) => Outcome([FormatSolved(name)], st', Notification(c, FormatSolvedAdmin(SolverName(user), name)))
  }

  /** A contact conversation: texts accumulate in the buffer until a lone "." forwards it to the organisers. */
  function ContactStep(st: Store, c: Config, user: User, s: string, text: string): Outcome {
    var u := user.id;
    if text == "." then
      var topic := Topic(st, s);
      var message := st.ReadText(ContactKey(u)).GetOr("");
      var note := FormatMessage(ContactName(user), message, if topic.Some? then Some(topic.value.name) else None);
      Outcome([MESSAGE_SENT], SetState(st.Put(ContactKey(u), TextValue("")), u, ""), Notification(c, note))
    else
      Outcome([], st.Put(ContactKey(u), TextValue(Appended(st.ReadText(ContactKey(u)), text))), [])
  }

  /** The store leaves a free token for a new task when the conversation needs one. */
  predicate CreateReady(st: Store, u: U64, text: string, tokens: seq<string>) {
    UserState(st, u) == Some("create") && StringToTask(text).Success? ==> FirstFree(st, tokens) < |tokens|
  }

  /** The `create` conversation: one text, parsed as a task and stored under the first free token. */
  function CreateStep(st: Store, u: U64, text: string, tokens: seq<string>): Outcome
    requires StringToTask(text).Success? ==> FirstFree(st, tokens) < |tokens|
  {
    match StringToTask(text)
    case Failure(e) => Outcome([FormatError(e)], SetState(st, u, ""), [])
    case Success(t) =>
      var key := TaskKey(tokens[FirstFree(st, tokens)]);
      Outcome([FormatCreated(key)], SetState(st.PutTask(key, t), u, ""), [])
  }

  /** The messages of a broadcast: `text` to every id but 0, in order. */
  function Broadcast(ids: seq<U64>, text: string): (ms: seq<Message>)
    ensures |ms| <= |ids|
    ensures (forall i :: 0 <= i < |ids| ==> ids[i] != 0) ==> |ms| == |ids|
    decreases |ids|
  {
    if ids == [] then []
    else
      var last := ids[|ids| - 1];
      Broadcast(ids[..|ids| - 1], text) + (if last != 0 then [FromText(AsI64(last), text)] else [])
  }

  /** No broadcast message goes to chat 0, all carry the text, and every non-zero id gets one. */
  lemma {:induction false} BroadcastReachesAll(ids: seq<U64>, text: string)
    ensures forall m :: m in Broadcast(ids, text) ==> m.text == text && m.chat != 0 && m.markup.None?
    ensures forall i :: 0 <= i < |ids| && ids[i] != 0 ==> FromText(AsI64(ids[i]), text) in Broadcast(ids, text)
    ensures |Broadcast(ids, text)| <= |ids|
    decreases |ids|
  {
    if ids != [] {
      var init := ids[..|ids| - 1];
      BroadcastReachesAll(init, text);
      assert forall i :: 0 <= i < |init| ==> init[i] == ids[i];
    }
  }

  /** The `message` conversation: texts accumulate until a lone "." broadcasts the buffer to every known user. */
  function BroadcastStep(st: Store, u: U64, text: string): Outcome {
    if text == "." then
      var message := st.ReadText(ContactKey(u)).GetOr("");
      var st' := SetState(st.Put(ContactKey(u), TextValue("")), u, "");
      Outcome([], st', Broadcast(AllUsers(st'), FormatMessageBroadcast(message)))
    else
      Outcome([], st.Put(ContactKey(u), TextValue(Appended(st.ReadText(ContactKey(u)), text))), [])
  }

  /** The `edit_<id>` conversation: one text, parsed as a task and written over `task:<id>`. */
  function EditStep(st: Store, u: U64, id: string, text: string): Outcome {
    match StringToTask(text)
    case Failure(e) => Outcome([FormatError(e)], SetState(st, u, ""), [])
    case Success(t) => Outcome([FormatModified(id)], SetState(st.PutTask(TaskKey(id), t), u, ""), [])
  }

  /** `process_data` on a store: the conversation state picks what the text means. */
  function DataStep(st: Store, c: Config, user: User, text: string, now: nat, tokens: seq<string>): Outcome
    requires CreateReady(st, user.id, text, tokens)
  {
    var u := user.id;
    match UserState(st, u)
    case None =>
      if CanProcessCommand(c, u, now) then SubmitStep(st, c, user, text) else Outcome([NOT_YET], st, [])
    case Some(s) =>
      if StartsWith(s, "contact") then ContactStep(st, c, user, s, text)
      else if s == "create" then CreateStep(st, u, text, tokens)
      else if s == "message" then BroadcastStep(st, u, text)
      else if StartsWith(s, "edit_") then EditStep(st, u, LastSegment(s, '_'), text)
      else Outcome([NOT_IMPLEMENTED], SetState(st, u, ""), [])
  }

  /**
   * The conversation rule: a contact or broadcast conversation goes on until a lone ".",
   * every other conversation ends after one text, and without a conversation none starts.
   */
  function NextState(state: Option<string>, text: string): Option<string> {
    match state
    case None => None
    case Some(s) => if (StartsWith(s, "contact") || s == "message") && text != "." then state else None
  }

  /** `process_data` moves the sender's conversation as `NextState` says and no one else's. */
  lemma DataStepState(st: Store, c: Config, user: User, text: string, now: nat, tokens: seq<string>)
    requires CreateReady(st, user.id, text, tokens)
    ensures UserState(DataStep(st, c, user, text, now, tokens).store, user.id) == NextState(UserState(st, user.id), text)
    ensures forall v: U64 :: v != user.id ==>
      UserState(DataStep(st, c, user, text, now, tokens).store, v) == UserState(st, v)
  {
    var u := user.id;
    var o := DataStep(st, c, user, text, now, tokens);
    forall v: U64 ensures UserState(o.store, v) == if v == u then NextState(UserState(st, u), text) else UserState(st, v) {
      DataStepStateOf(st, c, user, text, now, tokens, v);
    }
  }

  lemma DataStepStateOf(st: Store, c: Config, user: User, text: string, now: nat, tokens: seq<string>, v: U64)
    requires CreateReady(st, user.id, text, tokens)
    ensures UserState(DataStep(st, c, user, text, now, tokens).store, v) ==
      if v == user.id then NextState(UserState(st, user.id), text) else UserState(st, v)
  {
    var u := user.id;
    KeysDistinct(v, u, "");
    match UserState(st, u)
    case None =>
      if CanProcessCommand(c, u, now) {
        SubmitKeepsStates(st, u, text, v);
      }
    case Some(s) =>
      if StartsWith(s, "contact") || s == "message" {
        if text == "." {
          UserStateAfterSet(st.Put(ContactKey(u), TextValue("")), u, "");
          StateAfterOtherPut(st, v, ContactKey(u), TextValue(""));
        } else {
          StateAfterOtherPut(st, v, ContactKey(u), TextValue(Appended(st.ReadText(ContactKey(u)), text)));
        }
      } else if s == "create" && StringToTask(text).Success? {
        var key := TaskKey(tokens[FirstFree(st, tokens)]);
        KeysDistinct(v, u, tokens[FirstFree(st, tokens)]);
        StateAfterOtherPut(st, v, key, TaskValue(StringToTask(text).value.(id := "")));
        UserStateAfterSet(st.PutTask(key, StringToTask(text).value), u, "");
      } else if StartsWith(s, "edit_") && StringToTask(text).Success? {
        var id := LastSegment(s, '_');
        KeysDistinct(v, u, id);
        StateAfterOtherPut(st, v, TaskKey(id), TaskValue(StringToTask(text).value.(id := "")));
        UserStateAfterSet(st.PutTask(TaskKey(id), StringToTask(text).value), u, "");
      } else {
        UserStateAfterSet(st, u, "");
      }
  }

  /** A flag submission writes at most the submitter's ledger, so no conversation state moves. */
  lemma SubmitKeepsStates(st: Store, u: U64, text: string, v: U64)
    ensures UserState(Submit(st, u, text).1, v) == UserState(st, v)
  {
    KeysDistinct(v, u, "");
    var st' := Submit(st, u, text).1;
    if st' != st {
      SubmitChangesLedgerOnly(st, u, text);
      StateAfterOtherPut(st, v, SolveKey(u), SolveValue(Ledger(st, u) + [st'.ReadSolve(SolveKey(u)).value[|Ledger(st, u)|]]));
    }
  }

  lemma SubmitChangesLedgerOnly(st: Store, u: U64, text: string)
    ensures Submit(st, u, text).1 == st ||
      exists k :: Submit(st, u, text).1 == WithSolved(st, u, k)
  {
  }

  /** `process_data` */
  method ProcessData(api: Api, user: User, text: string, now: nat, tokens: seq<string>) returns (replies: seq<string>)
    requires api.Valid()
    requires CreateReady(api.store, user.id, text, tokens)
    modifies api
    ensures api.Valid()
    ensures replies == DataStep(old(api.store), api.config, user, text, now, tokens).replies
    ensures api.store == DataStep(old(api.store), api.config, user, text, now, tokens).store
    ensures api.outbox == old(api.outbox) + DataStep(old(api.store), api.config, user, text, now, tokens).sent
  {
    var u := user.id;
    var play := CanProcessCommand(api.config, u, now);
    match UserState(api.store, u)
    case None =>
      if !play {
        replies := [NOT_YET];
      } else {
        replies := SubmitText(api, user, text);
      }
    case Some(s) =>
      if StartsWith(s, "contact") {
        replies := ContactText(api, user, s, text);
      } else if s == "create" {
        replies := CreateText(api, u, text, tokens);
      } else if s == "message" {
        replies := BroadcastText(api, u, text);
      } else if StartsWith(s, "edit_") {
        replies := EditText(api, u, LastSegment(s, '_'), text);
      } else {
        api.SetUserState(u, "");
        replies := [NOT_IMPLEMENTED];
      }
  }

  method SubmitText(api: Api, user: User, text: string) returns (replies: seq<string>)
    requires api.Valid()
    modifies api
    ensures api.Valid()
    ensures replies == SubmitStep(old(api.store), api.config, user, text).replies
    ensures api.store == SubmitStep(old(api.store), api.config, user, text).store
    ensures api.outbox == old(api.outbox) + SubmitStep(old(api.store), api.config, user, text).sent
  {
    var r := api.TrySubmitFlag(user.id, text);
    match r
    case NotAFlag =>
      replies := [UNKNOWN_TEXT];
    case AlreadySolved =>
      replies := [ALREADY_SOLVED];
    case Solved(name) =>
      api.SendNotification(FormatSolvedAdmin(SolverName(user), name));
      replies := [FormatSolved(name)];
  }

  method ContactText(api: Api, user: User, s: string, text: string) returns (replies: seq<string>)
    requires api.Valid()
    modifies api
    ensures api.Valid()
    ensures replies == ContactStep(old(api.store), api.config, user, s, text).replies
    ensures api.store == ContactStep(old(api.store), api.config, user, s, text).store
    ensures api.outbox == old(api.outbox) + ContactStep(old(api.store), api.config, user, s, text).sent
  {
    var u := user.id;
    if text == "." {
      var parts := Split(s, '_');
      var topic: Option<Task> := None;
      if |parts| == 2 {
        topic := api.GetTask(parts[1]);
      }
      var message := api.RetrieveAndEraseContact(u);
      var note := FormatMessage(ContactName(user), message, if topic.Some? then Some(topic.value.name) else None);
      api.SendNotification(note);
      replies := [MESSAGE_SENT];
      api.SetUserState(u, "");
    } else {
      api.AppendToContact(u, text);
      replies := [];
    }
  }

  method CreateText(api: Api, u: U64, text: string, tokens: seq<string>) returns (replies: seq<string>)
    requires api.Valid()
    requires StringToTask(text).Success? ==> FirstFree(api.store, tokens) < |tokens|
    modifies api
    ensures api.Valid()
    ensures replies == CreateStep(old(api.store), u, text, tokens).replies
    ensures api.store == CreateStep(old(api.store), u, text, tokens).store
    ensures api.outbox == old(api.outbox) + CreateStep(old(api.store), u, text, tokens).sent
  {
    if StringToTask(text).Success? {
      assert api.store.ReadTask(TaskKey(tokens[FirstFree(api.store, tokens)])).None?;
    }
    var r := api.CreateTask(text, tokens);
    if r.Success? {
      replies := [FormatCreated(r.value)];
      api.SetUserState(u, "");
    } else {
      replies := [FormatError(r.error)];
      api.SetUserState(u, "");
    }
    AppendNothing(old(api.outbox));
  }

  method BroadcastText(api: Api, u: U64, text: string) returns (replies: seq<string>)
    requires api.Valid()
    modifies api
    ensures api.Valid()
    ensures replies == BroadcastStep(old(api.store), u, text).replies
    ensures api.store == BroadcastStep(old(api.store), u, text).store
    ensures api.outbox == old(api.outbox) + BroadcastStep(old(api.store), u, text).sent
  {
    replies := [];
    if text == "." {
      var message := api.RetrieveAndEraseContact(u);
      api.SetUserState(u, "");
      var ids := AllUsers(api.store);
      SendToAll(api, ids, FormatMessageBroadcast(message));
    } else {
      api.AppendToContact(u, text);
      AppendNothing(old(api.outbox));
    }
  }

  /** The loop over `get_all_users` at the end of a broadcast. */
  method SendToAll(api: Api, ids: seq<U64>, note: string)
    modifies api
    ensures api.store == old(api.store)
    ensures api.outbox == old(api.outbox) + Broadcast(ids, note)
  {
    for i := 0 to |ids|
      invariant api.store == old(api.store)
      invariant api.outbox == old(api.outbox) + Broadcast(ids[..i], note)
    {
      assert ids[..i + 1][..i] == ids[..i];
      if ids[i] != 0 {
        api.SendMessage(AsI64(ids[i]), note);
      }
    }
    assert ids[..|ids|] == ids;
  }

  method EditText(api: Api, u: U64, id: string, text: string) returns (replies: seq<string>)
    requires api.Valid()
    modifies api
    ensures api.Valid()
    ensures replies == EditStep(old(api.store), u, id, text).replies
    ensures api.store == EditStep(old(api.store), u, id, text).store
    ensures api.outbox == old(api.outbox) + EditStep(old(api.store), u, id, text).sent
  {
    var r := api.EditTask(id, text);
    if r.Success? {
      replies := [FormatModified(id)];
      api.SetUserState(u, "");
    } else {
      replies := [FormatError(r.error)];
      api.SetUserState(u, "");
    }
    AppendNothing(old(api.outbox));
  }

  // ---------------------------------------------------------------------------
  // callback_handler

  /**
   * `callback_handler` on a store, for a button press with callback `data`. `hasMessage` says
   * the press came with its message, `deleteOk` whether deleting that message succeeded (a
   * failure ends the handler with an error). The state is cleared first in every case.
   */
  function CallbackStep(st: Store, u: U64, hasMessage: bool, deleteOk: bool, data: Option<string>): Outcome {
    var state := UserState(st, u);
    var st' := SetState(st, u, "");
    if !hasMessage || !deleteOk || data.None? || state.None? then Outcome([], st', [])
    else
      var id := data.value;
      match st'.ReadTask(TaskKey(id))
      case None => Outcome([], st', [])
      case Some(task) =>
        if state.value == "edit" then
          Outcome([], SetState(st', u, "edit_" + id), [FromText(AsI64(u), CREATE_TASK), FromText(AsI64(u), FormatTaskAdmin(task))])
        else if state.value == "delete" then
          Outcome([], st'.Delete(TaskKey(id)), [FromText(AsI64(u), FormatDeleted(task.name))])
        else Outcome([], st', [])
  }

  /** The press is one the handler acts on: a message to delete, deleted, data naming an existing task. */
  predicate PressOnTask(st: Store, hasMessage: bool, deleteOk: bool, data: Option<string>) {
    hasMessage && deleteOk && data.Some? && st.ReadTask(TaskKey(data.value)).Some?
  }

  /**
   * After a press the sender's state is `edit_<id>` exactly when an `edit` conversation chose
   * an existing task, and none otherwise.
   */
  lemma CallbackState(st: Store, u: U64, hasMessage: bool, deleteOk: bool, data: Option<string>)
    ensures UserState(CallbackStep(st, u, hasMessage, deleteOk, data).store, u) ==
      if PressOnTask(st, hasMessage, deleteOk, data) && UserState(st, u) == Some("edit") then Some("edit_" + data.value) else None
  {
    var st' := SetState(st, u, "");
    var o := CallbackStep(st, u, hasMessage, deleteOk, data);
    UserStateAfterSet(st, u, "");
    if data.Some? {
      var key := TaskKey(data.value);
      KeysDistinct(u, u, data.value);
      assert st'.ReadTask(key) == st.ReadTask(key);
    }
    if !PressOnTask(st, hasMessage, deleteOk, data) || UserState(st, u).None? {
      assert o.store == st';
    } else if UserState(st, u) == Some("edit") {
      assert o.store == SetState(st', u, "edit_" + data.value);
      UserStateAfterSet(st', u, "edit_" + data.value);
      assert ("edit_" + data.value)[0] == 'e';
    } else if UserState(st, u) == Some("delete") {
      assert o.store == st'.Delete(TaskKey(data.value));
      assert UserState(o.store, u) == UserState(st', u);
    } else {
      assert o.store == st';
    }
  }

  /** In a `delete` conversation the chosen task is gone and every other key reads as a task as before. */
  lemma CallbackDeletes(st: Store, u: U64, hasMessage: bool, deleteOk: bool, data: Option<string>)
    requires PressOnTask(st, hasMessage, deleteOk, data) && UserState(st, u) == Some("delete")
    ensures CallbackStep(st, u, hasMessage, deleteOk, data).store.ReadTask(TaskKey(data.value)).None?
    ensures forall k :: k != TaskKey(data.value) ==>
      CallbackStep(st, u, hasMessage, deleteOk, data).store.ReadTask(k) == st.ReadTask(k)
  {
    KeysDistinct(u, u, data.value);
    CallbackDeleteStore(st, u, hasMessage, deleteOk, data);
    ClearThenDelete(st, u, TaskKey(data.value));
  }

  lemma CallbackDeleteStore(st: Store, u: U64, hasMessage: bool, deleteOk: bool, data: Option<string>)
    requires PressOnTask(st, hasMessage, deleteOk, data) && UserState(st, u) == Some("delete")
    ensures CallbackStep(st, u, hasMessage, deleteOk, data).store == SetState(st, u, "").Delete(TaskKey(data.value))
  {
    KeysDistinct(u, u, data.value);
    RecordsAfterPut(st, StateKey(u), TextValue(""), TaskKey(data.value));
  }

  /** Clearing a user's state and deleting another key: that key is gone, the rest read as tasks as before. */
  lemma ClearThenDelete(st: Store, u: U64, key: string)
    requires UserState(st, u).Some? && key != StateKey(u)
    ensures SetState(st, u, "").Delete(key).ReadTask(key).None?
    ensures forall k :: k != key ==> SetState(st, u, "").Delete(key).ReadTask(k) == st.ReadTask(k)
  {
    var sk := StateKey(u);
    var cleared := st.Put(sk, TextValue(""));
    assert SetState(st, u, "") == cleared;
    TasksAfterDelete(cleared, key, key);
    forall k | k != key
      ensures cleared.Delete(key).ReadTask(k) == st.ReadTask(k)
    {
      TasksAfterDelete(cleared, key, k);
      if k == sk {
        assert st.ReadText(k).Some?;
      } else {
        RecordsAfterPut(st, sk, TextValue(""), k);
      }
    }
  }

  /** `callback_handler` */
  method CallbackHandler(api: Api, u: U64, hasMessage: bool, deleteOk: bool, data: Option<string>)
    requires api.Valid()
    modifies api
    ensures api.Valid()
    ensures api.store == CallbackStep(old(api.store), u, hasMessage, deleteOk, data).store
    ensures api.outbox == old(api.outbox) + CallbackStep(old(api.store), u, hasMessage, deleteOk, data).sent
  {
    ghost var o := CallbackStep(api.store, u, hasMessage, deleteOk, data);
    var state := UserState(api.store, u);
    api.SetUserState(u, "");
    ghost var cleared := api.store;
    assert cleared == SetState(old(api.store), u, "");
    if !hasMessage || !deleteOk || data.None? || state.None? {
      assert o == Outcome([], cleared, []);
      return;
    }
    var id := data.value;
    var task := api.GetTask(id);
    assert task == cleared.ReadTask(TaskKey(id));
    if task.None? {
      assert o == Outcome([], cleared, []);
      return;
    }
    if state.value == "edit" {
      assert o.store == SetState(cleared, u, "edit_" + id);
      assert o.sent == [FromText(AsI64(u), CREATE_TASK), FromText(AsI64(u), FormatTaskAdmin(task.value))];
      api.SendMessage(AsI64(u), CREATE_TASK);
      api.SendMessage(AsI64(u), FormatTaskAdmin(task.value));
      api.SetUserState(u, "edit_" + id);
    } else if state.value == "delete" {
      assert o.store == cleared.Delete(TaskKey(id));
      assert o.sent == [FromText(AsI64(u), FormatDeleted(task.value.name))];
      api.DeleteTask(id);
      api.SendMessage(AsI64(u), FormatDeleted(task.value.name));
    } else {
      assert o == Outcome([], cleared, []);
    }
  }

  // ---------------------------------------------------------------------------
  // answer_messages: routing and packing

  /** Telegram's limit on a message, in bytes, which the packing stays under. */
  const MESSAGE_LIMIT: nat := 4096

  /** The next reply can join the message in hand (counting the two-byte "\n\n" between them). */
  predicate Fits(buf: string, item: string) {
    ByteLen(item) + ByteLen(buf) + 2 < MESSAGE_LIMIT
  }

  /** The message in hand with one more reply, "\n\n" between them. */
  function Glue(buf: string, item: string): string {
    if buf == "" then item else buf + "\n\n" + item
  }

  /** The message in hand, if it is worth sending. */
  function Flush(buf: string): seq<string> {
    if buf == "" then [] else [buf]
  }

  /**
   * The packing loop of `answer_messages` as written: a reply that does not fit flushes the
   * message in hand and is then itself thrown away.
   */
  function PackAsWritten(buf: string, items: seq<string>): seq<string>
    decreases |items|
  {
    if items == [] then Flush(buf)
    else if Fits(buf, items[0]) then PackAsWritten(Glue(buf, items[0]), items[1..])
    else [buf] + PackAsWritten("", items[1..])
  }

  /** The packing as evidently intended: a reply that does not fit starts the next message. */
  function Pack(buf: string, items: seq<string>): seq<string>
    decreases |items|
  {
    if items == [] then Flush(buf)
    else if Fits(buf, items[0]) then Pack(Glue(buf, items[0]), items[1..])
    else Flush(buf) + Pack(items[0], items[1..])
  }

  /** The as-written packing never sends an oversized message, whatever the replies. */
  lemma {:induction false} PackAsWrittenFits(buf: string, items: seq<string>)
    requires ByteLen(buf) < MESSAGE_LIMIT
    ensures forall m :: m in PackAsWritten(buf, items) ==> ByteLen(m) < MESSAGE_LIMIT
    decreases |items|
  {
    if items != [] {
      if Fits(buf, items[0]) {
        GlueLength(buf, items[0]);
        PackAsWrittenFits(Glue(buf, items[0]), items[1..]);
      } else {
        PackAsWrittenFits("", items[1..]);
      }
    }
  }

  /** The glued message is as long as its two parts and the separator. */
  lemma GlueLength(buf: string, item: string)
    ensures ByteLen(Glue(buf, item)) <= ByteLen(item) + ByteLen(buf) + 2
  {
    if buf != "" {
      ByteLenConcat(buf + "\n\n", item);
      ByteLenConcat(buf, "\n\n");
      assert ByteLen("\n\n") == 2 by {
        assert "\n\n"[..1] == "\n";
        assert "\n"[..0] == "";
      }
    }
  }

  /**
   * Two replies that each fit alone but not together: as written, the second one is lost,
   * while the corrected packing sends both.
   */
  lemma PackAsWrittenDropsReply(a: string, b: string)
    requires a != "" && ByteLen(a) + 2 < MESSAGE_LIMIT && ByteLen(b) + 2 < MESSAGE_LIMIT
    requires !Fits(a, b)
    ensures PackAsWritten("", [a, b]) == [a]
    ensures Pack("", [a, b]) == [a, b]
  {
    assert Fits("", a);
    DropTwo(a, b, []);
    assert [a, b][1..] == [b];
    assert !Fits(a, [b][0]);
    assert PackAsWritten("", [b][1..]) == [];
    assert Fits("", b);
    assert Pack(b, [b][1..]) == [b];
  }

  /** A reply too long to fit alone makes the as-written loop send an empty message. */
  lemma PackAsWrittenSendsEmpty(a: string)
    requires !Fits("", a)
    ensures PackAsWritten("", [a]) == [""]
  {
  }

  /** ASCII text is one byte per character. */
  lemma {:induction false} ByteLenAscii(s: string)
    requires forall i :: 0 <= i < |s| ==> s[i] as int < 0x80
    ensures ByteLen(s) == |s|
    decreases |s|
  {
    if s != [] {
      ByteLenAscii(s[..|s| - 1]);
    }
  }

  /** Two task listings of 3000 ASCII characters each: only the first reaches the chat. */
  lemma TwoLongReplies()
    ensures PackAsWritten("", [seq(3000, i => 'x'), seq(3000, i => 'x')]) == [seq(3000, i => 'x')]
  {
    var a := seq(3000, i => 'x');
    ByteLenAscii(a);
    PackAsWrittenDropsReply(a, a);
  }

  /** Every message of the corrected packing is non-empty and fits, given replies that each fit alone. */
  lemma {:induction false} PackFits(buf: string, items: seq<string>)
    requires ByteLen(buf) < MESSAGE_LIMIT
    requires forall i :: 0 <= i < |items| ==> ByteLen(items[i]) < MESSAGE_LIMIT
    ensures forall m :: m in Pack(buf, items) ==> m != "" && ByteLen(m) < MESSAGE_LIMIT
    decreases |items|
  {
    if items != [] {
      assert forall i :: 0 <= i < |items[1..]| ==> items[1..][i] == items[i + 1];
      if Fits(buf, items[0]) {
        GlueLength(buf, items[0]);
        PackFits(Glue(buf, items[0]), items[1..]);
      } else {
        PackFits(items[0], items[1..]);
      }
    }
  }

  /** The messages, joined again with "\n\n", are the replies joined with "\n\n": nothing is lost or reordered. */
  lemma {:induction false} PackKeepsAll(buf: string, items: seq<string>)
    requires forall i :: 0 <= i < |items| ==> items[i] != ""
    ensures Join(Pack(buf, items), "\n\n") == Join(Flush(buf) + items, "\n\n")
    decreases |items|
  {
    if items != [] {
      var x := items[0];
      var rest := items[1..];
      HeadTail(items);
      assert forall i :: 0 <= i < |rest| ==> rest[i] == items[i + 1];
      assert x != "";
      if Fits(buf, x) {
        PackKeepsAll(Glue(buf, x), rest);
        assert |Glue(buf, x)| >= |x|;
        assert Flush(Glue(buf, x)) == [Glue(buf, x)];
        if buf != "" {
          JoinGlued(buf, x, rest);
        } else {
          assert Flush(buf) + items == items;
        }
      } else {
        PackKeepsAll(x, rest);
        assert Flush(x) == [x];
        assert Pack(buf, items) == Flush(buf) + Pack(x, rest);
        if buf != "" {
          var tail := Pack(x, rest);
          PackNonEmpty(x, rest);
          JoinFront(buf, tail, "\n\n");
          JoinFront(buf, [x] + rest, "\n\n");
          assert Join(tail, "\n\n") == Join([x] + rest, "\n\n");
          assert Pack(buf, items) == [buf] + tail;
          assert Flush(buf) + items == [buf] + ([x] + rest);
        } else {
          assert Pack(buf, items) == Pack(x, rest);
          assert Flush(buf) + items == [x] + rest;
        }
      }
    }
  }

  /** Gluing two replies and joining, or joining them apart, is the same text. */
  lemma JoinGlued(buf: string, x: string, rest: seq<string>)
    ensures Join([buf + "\n\n" + x] + rest, "\n\n") == Join([buf] + ([x] + rest), "\n\n")
  {
    JoinFront(buf + "\n\n" + x, rest, "\n\n");
    JoinFront(buf, [x] + rest, "\n\n");
    JoinFront(x, rest, "\n\n");
    if rest != [] {
      var j := Join(rest, "\n\n");
      assert (buf + "\n\n" + x) + "\n\n" + j == buf + "\n\n" + (x + "\n\n" + j);
    }
  }

  /** A message in hand is always sent eventually. */
  lemma {:induction false} PackNonEmpty(buf: string, items: seq<string>)
    requires buf != ""
    ensures Pack(buf, items) != []
    decreases |items|
  {
    if items != [] {
      if Fits(buf, items[0]) {
        assert Glue(buf, items[0]) != "";
        PackNonEmpty(Glue(buf, items[0]), items[1..]);
      }
    }
  }

  /** One text message per packed piece, to `chat`. */
  function Deliveries(chat: int, texts: seq<string>): seq<Message> {
    seq(|texts|, i requires 0 <= i < |texts| => FromText(chat, texts[i]))
  }

  /** One pass of the packing loop, on the remaining replies. */
  lemma PackStep(buf: string, items: seq<string>, i: nat)
    requires i < |items|
    ensures Pack(buf, items[i..]) ==
      if Fits(buf, items[i]) then Pack(Glue(buf, items[i]), items[i + 1..])
      else Flush(buf) + Pack(items[i], items[i + 1..])
  {
    assert items[i..][0] == items[i];
    assert items[i..][1..] == items[i + 1..];
  }

  /** A reply that fits joins the message in hand. */
  lemma PackGlues(buf: string, items: seq<string>, i: nat)
    requires i < |items| && Fits(buf, items[i])
    ensures Pack(buf, items[i..]) == Pack(Glue(buf, items[i]), items[i + 1..])
  {
    PackStep(buf, items, i);
  }

  /** A reply that does not fit: the message in hand, if any, is sent and the reply starts the next. */
  lemma PackFlushes(sent: seq<string>, buf: string, items: seq<string>, i: nat)
    requires i < |items| && !Fits(buf, items[i])
    ensures sent + Pack(buf, items[i..]) == (sent + Flush(buf)) + Pack(items[i], items[i + 1..])
  {
    PackStep(buf, items, i);
    Associative(sent, Flush(buf), Pack(items[i], items[i + 1..]));
  }

  /** The packing loop of `answer_messages`, with the corrected branch for a reply that does not fit. */
  method SendPacked(api: Api, chat: int, items: seq<string>)
    modifies api
    ensures api.store == old(api.store)
    ensures api.outbox == old(api.outbox) + Deliveries(chat, Pack("", items))
  {
    var message := "";
    ghost var sent: seq<string> := [];
    var i := 0;
    while i < |items|
      invariant 0 <= i <= |items|
      invariant sent + Pack(message, items[i..]) == Pack("", items)
      invariant api.outbox == old(api.outbox) + Deliveries(chat, sent)
      invariant api.store == old(api.store)
    {
      var next := items[i];
      if ByteLen(next) + ByteLen(message) + 2 < MESSAGE_LIMIT {
        PackGlues(message, items, i);
        ghost var glued := Glue(message, next);
        if message != "" {
          message := message + "\n\n";
        }
        message := message + next;
        assert message == glued;
      } else {
        PackFlushes(sent, message, items, i);
        if message != "" {
          api.SendMessage(chat, message);
          DeliveriesAppend(chat, sent, message);
          sent := sent + [message];
        } else {
          AppendNothing(sent);
        }
        message := next;
      }
      i := i + 1;
    }
    assert items[|items|..] == [];
    if message != "" {
      api.SendMessage(chat, message);
      DeliveriesAppend(chat, sent, message);
      sent := sent + [message];
    }
  }

  /** One pass of the as-written packing loop, on the remaining replies. */
  lemma PackAsWrittenStep(buf: string, items: seq<string>, i: nat)
    requires i < |items|
    ensures PackAsWritten(buf, items[i..]) ==
      if Fits(buf, items[i]) then PackAsWritten(Glue(buf, items[i]), items[i + 1..])
      else [buf] + PackAsWritten("", items[i + 1..])
  {
    assert items[i..][0] == items[i];
    assert items[i..][1..] == items[i + 1..];
  }

  /** A reply that fits joins the message in hand. */
  lemma PackAsWrittenGlues(buf: string, items: seq<string>, i: nat)
    requires i < |items| && Fits(buf, items[i])
    ensures PackAsWritten(buf, items[i..]) == PackAsWritten(Glue(buf, items[i]), items[i + 1..])
  {
    PackAsWrittenStep(buf, items, i);
  }

  /** A reply that does not fit: the message in hand is sent and the packing restarts empty. */
  lemma PackAsWrittenFlushes(sent: seq<string>, buf: string, items: seq<string>, i: nat)
    requires i < |items| && !Fits(buf, items[i])
    ensures sent + PackAsWritten(buf, items[i..]) == (sent + [buf]) + PackAsWritten("", items[i + 1..])
  {
    PackAsWrittenStep(buf, items, i);
    Associative(sent, [buf], PackAsWritten("", items[i + 1..]));
  }

  /**
   * The packing loop of `answer_messages` as written: a reply that does not fit sends the
   * message in hand, even an empty one, and is itself dropped.
   */
  method SendPackedAsWritten(api: Api, chat: int, items: seq<string>)
    modifies api
    ensures api.store == old(api.store)
    ensures api.outbox == old(api.outbox) + Deliveries(chat, PackAsWritten("", items))
  {
    var message := "";
    ghost var sent: seq<string> := [];
    var i := 0;
    while i < |items|
      invariant 0 <= i <= |items|
      invariant sent + PackAsWritten(message, items[i..]) == PackAsWritten("", items)
      invariant api.outbox == old(api.outbox) + Deliveries(chat, sent)
      invariant api.store == old(api.store)
    {
      var next := items[i];
      if ByteLen(next) + ByteLen(message) + 2 < MESSAGE_LIMIT {
        PackAsWrittenGlues(message, items, i);
        ghost var glued := Glue(message, next);
        if message != "" {
          message := message + "\n\n";
        }
        message := message + next;
        assert message == glued;
      } else {
        PackAsWrittenFlushes(sent, message, items, i);
        api.SendMessage(chat, message);
        DeliveriesAppend(chat, sent, message);
        sent := sent + [message];
        message := "";
      }
      i := i + 1;
    }
    assert items[|items|..] == [];
    if message != "" {
      api.SendMessage(chat, message);
      DeliveriesAppend(chat, sent, message);
      sent := sent + [message];
    } else {
      AppendNothing(sent);
    }
  }

  lemma DeliveriesAppend(chat: int, sent: seq<string>, m: string)
    ensures Deliveries(chat, sent + [m]) == Deliveries(chat, sent) + [FromText(chat, m)]
  {
  }

  /** Which handler `answer_messages` picks: the conversation first, then a leading '/'. */
  predicate ReadsAsCommand(st: Store, u: U64, text: string) {
    UserState(st, u).None? && StartsWith(text, "/")
  }

  /**
   * `answer_messages` on a store, for a text from `user` in chat `chat`: the handler's own
   * messages, then the replies packed as the code packs them, to the chat.
   */
  function AnswerStep(st: Store, c: Config, user: User, chat: int, text: string, now: nat,
                      secret: Option<string>, documentOk: bool, tokens: seq<string>): Outcome
    requires CreateReady(st, user.id, text, tokens)
  {
    var o := if ReadsAsCommand(st, user.id, text) then CommandStep(st, c, user.id, text, now, secret, documentOk)
             else DataStep(st, c, user, text, now, tokens);
    Outcome([], o.store, o.sent + Deliveries(chat, PackAsWritten("", o.replies)))
  }

  /**
   * In a conversation a text is conversation input even when it looks like a command, so
   * `/help` in the middle of a contact message is forwarded as text.
   */
  lemma ConversationComesFirst(st: Store, c: Config, user: User, chat: int, text: string, now: nat,
                               secret: Option<string>, documentOk: bool, tokens: seq<string>)
    requires CreateReady(st, user.id, text, tokens)
    requires UserState(st, user.id).Some?
    ensures AnswerStep(st, c, user, chat, text, now, secret, documentOk, tokens).store == DataStep(st, c, user, text, now, tokens).store
    ensures UserState(AnswerStep(st, c, user, chat, text, now, secret, documentOk, tokens).store, user.id) ==
      NextState(UserState(st, user.id), text)
  {
    DataStepState(st, c, user, text, now, tokens);
  }

  /** `answer_messages` */
  method AnswerMessages(api: Api, user: User, chat: int, text: string, now: nat,
                        secret: Option<string>, documentOk: bool, tokens: seq<string>)
    requires api.Valid()
    requires CreateReady(api.store, user.id, text, tokens)
    modifies api
    ensures api.Valid()
    ensures api.store == AnswerStep(old(api.store), api.config, user, chat, text, now, secret, documentOk, tokens).store
    ensures api.outbox == old(api.outbox) + AnswerStep(old(api.store), api.config, user, chat, text, now, secret, documentOk, tokens).sent
  {
    ghost var before := api.outbox;
    ghost var o := AnswerStep(api.store, api.config, user, chat, text, now, secret, documentOk, tokens);
    var replies;
    var state := UserState(api.store, user.id);
    if state.Some? {
      ghost var d := DataStep(api.store, api.config, user, text, now, tokens);
      replies := ProcessData(api, user, text, now, tokens);
      SendPackedAsWritten(api, chat, replies);
      Associative(before, d.sent, Deliveries(chat, PackAsWritten("", d.replies)));
    } else if StartsWith(text, "/") {
      ghost var d := CommandStep(api.store, api.config, user.id, text, now, secret, documentOk);
      replies := ProcessCommand(api, user.id, text, now, secret, documentOk);
      SendPackedAsWritten(api, chat, replies);
      Associative(before, d.sent, Deliveries(chat, PackAsWritten("", d.replies)));
    } else {
      ghost var d := DataStep(api.store, api.config, user, text, now, tokens);
      replies := ProcessData(api, user, text, now, tokens);
      SendPackedAsWritten(api, chat, replies);
      Associative(before, d.sent, Deliveries(chat, PackAsWritten("", d.replies)));
    }
  }
}
