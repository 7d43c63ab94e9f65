/**
 * The bot's wording: the canned replies and the formatters that render scores, tasks and
 * forwarded messages.
 */
module Text {
  import opened Wrappers
  import opened Strings
  import opened KeyValue

  // ---------------------------------------------------------------------------
  // Canned replies

  const HELP_TEXT: string :=
    "\n"
    + "Привет!\n"
    + "\n"
    + "Это бот для Вастрик.Кемпа в "
    + "Либерленде!\n"
    + "\n"
    + "Он показывает задания (/tasks), "
    + "правила (/rules) и твой счёт "
    + "(/score).\n"
    + "Ты всегда можешь написать (/contact) "
    + "оргам и что-то спросить.\n"
    + "\n"
    + "Ответом на каждое задания является "
    + "флаг: ключевое слово, набор "
    + "букв и цифр или чего-то ещё.\n"
    + "Например, флаг может выглядеть "
    + "так: CTF{Th1s_1s_fl4g}\n"
    + "\n"
    + "Задания могут (и будут) появляться "
    + "по мере возможности, так что "
    + "бот будет писать тебе сообщения "
    + "с анонсами."
  const RULES_TEXT: string :=
    "Правила!\n"
    + "\n"
    + "1. Не укради флаг у ближнего "
    + "своего, ищи сам!\n"
    + "2. Не подавай флага ближнему "
    + "своему, пусть ищет сам!\n"
    + "3. Не взламывай бота, он тут "
    + "не для этого!\n"
    + "4. Каждый флаг даёт 1 балл.\n"
    + "5. Кто наберет больше всех баллов "
    + "- выиграл.\n"
    + "6. Призовых мест будет от 1 "
    + "до 3, в зависимости от числа "
    + "участников.\n"
    + "7. Флаг может быть где угодно! "
    + "У организаторов богатая фантазия!\n"
    + "8. Игра начинается 5 июня в "
    + "10:00 утра.\n"
    + "9. Игра заканчивается 7 июня "
    + "в 19:00 вечера.\n"
  const CONTACT_TEXT: string :=
    "Напиши своё сообщение. Или несколько.\n"
    + "Всё, что ты напишешь, будет "
    + "отправлено организаторам AS "
    + "IS. Допускается только текст.\n"
    + "Когда закончишь писать - поставь "
    + "точку (.) отдельным сообщением"
  const MESSAGE_TEXT: string :=
    "Напиши своё сообщение. Всё, "
    + "что ты напишешь, будет отправлено "
    + "всем участникам (кто ходил в "
    + "бота) AS IS.\n"
    + "Когда закончишь писать - поставь "
    + "точку (.) отдельным сообщением"
  const CODE_TEXT: string := "К сожалению, код бота сейчас недоступен"
  const UNKNOWN_TEXT: string :=
    "Неизвестная команда, попробуй "
    + "начать с /help"
  const DENIED: string := "Доступ запрещен!"
  const NOT_YET: string :=
    "Игра начнётся в 10:00 четверга "
    + "и закончится в 19:00 субботы! "
    + "Посмотри пока /rules и /help"
  const NOT_IMPLEMENTED: string := "Еще не готово!"
  const MESSAGE_SENT: string := "Ваше сообщение было отправлено"
  const CREATE_TASK: string :=
    "Отправь задание в 3+ строки "
    + "одним сообщением:\n"
    + "1. Название\n"
    + "2. Флаг\n"
    + "3. Описание"
  const ALREADY_SOLVED: string := "Это задание уже решено!"
  const ALL_SOLVED: string :=
    "Ты уже всё решил! Подожди немного, "
    + "может быть появятся новые задания..."
  const CHOOSE: string := "Выбери задание:"

  // ---------------------------------------------------------------------------
  // Points and their Russian plural

  const ONE_POINT: string := "балл"
  const FEW_POINTS: string := "балла"
  const MANY_POINTS: string := "баллов"

  /** The three forms a Russian noun takes after a number. */
  datatype PluralForm = One | Few | Many

  function Word(f: PluralForm): (w: string)
    ensures w in {ONE_POINT, FEW_POINTS, MANY_POINTS}
  {
    match f
    case One => ONE_POINT
    case Few => FEW_POINTS
    case Many => MANY_POINTS
  }

  /** The three words differ, so the word tells the form. */
  lemma WordInjective(f: PluralForm, g: PluralForm)
    ensures Word(f) == Word(g) <==> f == g
  {
    assert |ONE_POINT| == 4 && |FEW_POINTS| == 5 && |MANY_POINTS| == 6;
  }

  /** The form `Format::score` picks, case by case as its `match` does. */
  function ScoreForm(n: nat): PluralForm {
    if n == 1 then One
    else if 2 <= n <= 4 then Few
    else if n == 0 || 5 <= n <= 21 then Many
    else if n % 10 == 1 then One
    else if 2 <= n % 10 <= 4 then Few
    else Many
  }

  /** The word after the number. */
  function ScoreSuffix(n: nat): string {
    Word(ScoreForm(n))
  }

  /** The plural rule of Russian grammar, as an independent reference. */
  function RussianForm(n: nat): PluralForm {
    if n % 10 == 1 && n % 100 != 11 then One
    else if 2 <= n % 10 <= 4 && !(12 <= n % 100 <= 14) then Few
    else Many
  }

  /**
   * The bot's wording agrees with the grammatical rule except at 21 (written "баллов") and
   * above 100 where the last two digits are 11 to 14 (111 is written "балл", 112 "балла").
   */
  lemma ScoreSuffixAgainstGrammar(n: nat)
    ensures ScoreSuffix(n) == Word(RussianForm(n)) <==> !(n == 21 || (n > 100 && 11 <= n % 100 <= 14))
  {
    WordInjective(ScoreForm(n), RussianForm(n));
    var d := n % 100;
    var e := n % 10;
    assert e == d % 10;
    if n <= 21 {
      assert d == n;
    } else if 11 <= d <= 14 {
      assert e == d - 10;
      assert n > 100;
    }
  }

  /**
   * The grammatical rule keeps every case the code spells out in its explicit ranges, and,
   * unlike the code, repeats with every hundred.
   */
  lemma RussianFormCorrects(n: nat)
    ensures n <= 20 ==> RussianForm(n) == ScoreForm(n)
    ensures RussianForm(n) == RussianForm(n % 100)
    ensures RussianForm(21) == One && RussianForm(111) == Many
  {
    assert (n % 100) % 10 == n % 10;
    assert (n % 100) % 100 == n % 100;
  }

  /** `Format::score`: the number in decimal, a space, the word. */
  function Score(n: nat): string {
    NatToString(n) + " " + ScoreSuffix(n)
  }

  /** The score text splits at its one space into the decimal number and the word. */
  lemma ScoreShape(n: nat)
    ensures Split(Score(n), ' ') == [NatToString(n), ScoreSuffix(n)]
    ensures DigitsValue(NatToString(n)) == n
    ensures ScoreSuffix(n) in {ONE_POINT, FEW_POINTS, MANY_POINTS}
  {
    var digits := NatToString(n);
    assert ' ' !in digits;
    var suffix := ScoreSuffix(n);
    assert ' ' !in suffix;
    assert Score(n) == digits + [' '] + suffix;
    SplitAfterPiece(digits, ' ', suffix);
    DigitsOfNatToString(n);
  }

  // ---------------------------------------------------------------------------
  // Scores

  /** `format_score_board`: one scoreboard line; a profile shows as "full name (slug)". */
  function FormatScoreBoard(place: nat, user: Profile, score: nat): string {
    NatToString(place) + ". " + user.fullName + " (" + user.slug + ") - " + Score(score) + "\n"
  }

  const TEST_GROUP: string := "Ты в тестовой группе"

  /** `format_score`: `u64::MAX` as the place marks a test or admin user. */
  function FormatScore(place: nat, score: nat): (r: string)
    ensures StartsWith(r, TEST_GROUP) <==> place == U64_MAX
    ensures place != U64_MAX ==> StartsWith(r, "Ты на " + NatToString(place) + " ")
    ensures EndsWith(r, Score(score) + "!")
  {
    var tail := Score(score) + "!";
    if place == U64_MAX then
      var r := TEST_GROUP + " со счётом " + tail;
      assert r[|r| - |tail|..] == tail;
      r
    else
      var head := "Ты на " + NatToString(place) + " ";
      var r := head + "месте со счётом " + tail;
      assert r[..|head|] == head;
      assert r[|r| - |tail|..] == tail;
      assert r[3] != TEST_GROUP[3];
      r
  }

  // ---------------------------------------------------------------------------
  // Tasks

  /** `format_task_user` */
  function FormatTaskUser(task: Task): string {
    "<b>" + task.name + "</b>\n<i>" + task.hint + "</i>\n<tg-spoiler>/contact_" + task.id
      + " - Сообщить о проблеме</tg-spoiler>\n---\n"
  }

  /** The flag as an admin sees it: a single answer verbatim, several joined by ','. */
  function FlagText(flag: FlagType): (r: string)
    ensures flag.Single? ==> r == flag.answer
    ensures flag.Multi? && flag.answers != [] && (forall a :: a in flag.answers ==> ',' !in a) ==>
      Split(r, ',') == flag.answers
  {
    match flag
    case Single(answer) => answer
    case Multi(answers) =>
      CommaJoinSplits(answers);
      Join(answers, ",")
  }

  /** Answers without ',' come back out of their ','-join one by one. */
  lemma CommaJoinSplits(answers: seq<string>)
    ensures answers != [] && (forall a :: a in answers ==> ',' !in a) ==> Split(Join(answers, ","), ',') == answers
  {
    if answers != [] && (forall a :: a in answers ==> ',' !in a) {
      forall i | 0 <= i < |answers| ensures ',' !in answers[i] {
        assert answers[i] in answers;
      }
      assert [','] == ",";
      SplitJoin(answers, ',');
    }
  }

  /** The three editable lines inside `format_task_admin`: name (with `hidden:`), flag, hint. */
  function AdminFields(task: Task): (r: string)
    ensures task.hidden ==> StartsWith(r, "hidden:" + task.name + "\n")
    ensures !task.hidden ==> StartsWith(r, task.name + "\n")
  {
    var head := (if task.hidden then "hidden:" else "") + task.name + "\n";
    var r := head + FlagText(task.flag) + "\n" + task.hint;
    assert r[..|head|] == head;
    r
  }

  const ADMIN_HEADER: string := "Старые поля задания:\n<code>\n"
  const ADMIN_FOOTER: string := "\n</code>\n"

  /** `format_task_admin`: the task's fields in the layout the task parser reads back. */
  function FormatTaskAdmin(task: Task): (r: string)
    ensures StartsWith(r, ADMIN_HEADER) && EndsWith(r, ADMIN_FOOTER)
    ensures !StartsWith(task.name, "hidden:") ==>
      (StartsWith(r[|ADMIN_HEADER|..], "hidden:") <==> task.hidden)
  {
    var fields := AdminFields(task);
    var r := ADMIN_HEADER + fields + ADMIN_FOOTER;
    assert r[..|ADMIN_HEADER|] == ADMIN_HEADER;
    assert r[|r| - |ADMIN_FOOTER|..] == ADMIN_FOOTER;
    assert r[|ADMIN_HEADER|..] == fields + ADMIN_FOOTER;
    if task.hidden then
      StartsWithExtended("hidden:", fields, ADMIN_FOOTER);
      r
    else
      PlainFieldsNotHidden(task, ADMIN_FOOTER);
      r
  }

  lemma StartsWithExtended(prefix: string, s: string, t: string)
    requires StartsWith(s, prefix)
    ensures StartsWith(s + t, prefix)
  {
    assert (s + t)[..|prefix|] == s[..|prefix|];
  }

  /** Without the marker, the fields of a visible task do not start with "hidden:". */
  lemma PlainFieldsNotHidden(task: Task, tail: string)
    requires !task.hidden
    ensures !StartsWith(task.name, "hidden:") ==> !StartsWith(AdminFields(task) + tail, "hidden:")
  {
    var s := AdminFields(task) + tail;
    assert s[..|task.name| + 1] == task.name + "\n";
    if |task.name| >= 7 {
      assert s[..7] == task.name[..7];
    } else {
      assert s[|task.name|] == '\n';
    }
  }

  /** `format_solved` */
  function FormatSolved(name: string): string {
    "Задание <b>" + name + "</b> успешно решено!"
  }

  const TASK_HEAD: string := "Задание <b>"
  const DELETED_TAIL: string := "</b> было удалено"
  const MODIFIED_TAIL: string := "</b> было изменено"
  const CREATED_TAIL: string := "</b> было создано"

  /** `format_deleted`: the task name in bold between a fixed head and tail. */
  function FormatDeleted(name: string): (r: string)
    ensures |r| == |TASK_HEAD| + |name| + |DELETED_TAIL|
    ensures StartsWith(r, TASK_HEAD) && EndsWith(r, DELETED_TAIL)
    ensures r[|TASK_HEAD|..|r| - |DELETED_TAIL|] == name
  {
    var r := TASK_HEAD + name + DELETED_TAIL;
    assert r[..|TASK_HEAD|] == TASK_HEAD && r[|TASK_HEAD|..|r| - |DELETED_TAIL|] == name;
    r
  }

  /** `format_modified` */
  function FormatModified(name: string): (r: string)
    ensures |r| == |TASK_HEAD| + |name| + |MODIFIED_TAIL|
    ensures StartsWith(r, TASK_HEAD) && EndsWith(r, MODIFIED_TAIL)
    ensures r[|TASK_HEAD|..|r| - |MODIFIED_TAIL|] == name
  {
    var r := TASK_HEAD + name + MODIFIED_TAIL;
    assert r[..|TASK_HEAD|] == TASK_HEAD && r[|TASK_HEAD|..|r| - |MODIFIED_TAIL|] == name;
    r
  }

  /** `format_created` */
  function FormatCreated(name: string): (r: string)
    ensures |r| == |TASK_HEAD| + |name| + |CREATED_TAIL|
    ensures StartsWith(r, TASK_HEAD) && EndsWith(r, CREATED_TAIL)
    ensures r[|TASK_HEAD|..|r| - |CREATED_TAIL|] == name
  {
    var r := TASK_HEAD + name + CREATED_TAIL;
    assert r[..|TASK_HEAD|] == TASK_HEAD && r[|TASK_HEAD|..|r| - |CREATED_TAIL|] == name;
    r
  }

  /** The three notices about one task are told apart by their tails. */
  lemma NoticesDistinct(name: string)
    ensures FormatDeleted(name) != FormatModified(name)
    ensures FormatDeleted(name) != FormatCreated(name)
    ensures FormatModified(name) != FormatCreated(name)
  {
    var n := |TASK_HEAD| + |name|;
    assert FormatDeleted(name)[n + 10] == 'у';
    assert FormatModified(name)[n + 10] == 'и';
    assert FormatCreated(name)[n + 10] == 'с';
  }

  // ---------------------------------------------------------------------------
  // Messages

  /** `format_message_broadcast` */
  const BROADCAST_HEAD: string := "<b>Вам сообщение</b>:\n"

  function FormatMessageBroadcast(text: string): (r: string)
    ensures StartsWith(r, BROADCAST_HEAD) && r[|BROADCAST_HEAD|..] == text
  {
    var r := BROADCAST_HEAD + text;
    assert r[..|BROADCAST_HEAD|] == BROADCAST_HEAD;
    r
  }

  const FROM: string := "<b>Сообщение от @"
  const TOPIC: string := " по поводу задания <i>"

  /** `format_message`: a message forwarded to the organisers, about a task when one is named. */
  function FormatMessage(from: string, message: string, task: Option<string>): (r: string)
    ensures StartsWith(r, FROM + from)
    ensures StartsWith(r[|FROM + from|..], TOPIC) <==> task.Some?
    ensures task.Some? ==> StartsWith(r[|FROM + from|..], TOPIC + task.value + "</i></b>:\n\n")
    ensures EndsWith(r, "\n\n" + message + "\n")
  {
    var head := FROM + from;
    var topic := if task.Some? then TOPIC + task.value + "</i>" else "";
    var body := "\n\n" + message + "\n";
    var r := head + topic + "</b>:" + body;
    assert r[..|head|] == head;
    assert r[|head|..] == topic + "</b>:" + body;
    assert r[|r| - |body|..] == body;
    assert task.None? ==> !StartsWith(r[|head|..], TOPIC) by {
      if task.None? {
        var rest := r[|head|..];
        assert rest[0] == '<' && TOPIC[0] == ' ';
      }
    }
    r
  }

  /** `format_error` */
  const ERROR_HEAD: string := "Возникла ошибка: "

  function FormatError(error: string): (r: string)
    ensures StartsWith(r, ERROR_HEAD) && r[|ERROR_HEAD|..] == error
  {
    var r := ERROR_HEAD + error;
    assert r[..|ERROR_HEAD|] == ERROR_HEAD;
    r
  }

  const SOLVER_HEAD: string := "Пользователь "
  const SOLVED_MIDDLE: string := " решил задачу "

  /** `format_solved_admin`: the solver, then the task name at the end. */
  function FormatSolvedAdmin(user: string, task: string): (r: string)
    ensures StartsWith(r, SOLVER_HEAD + user + SOLVED_MIDDLE)
    ensures r[|SOLVER_HEAD + user + SOLVED_MIDDLE|..] == task
  {
    var head := SOLVER_HEAD + user + SOLVED_MIDDLE;
    var r := head + task;
    assert r[..|head|] == head;
    r
  }
}
