/**
 * The competition state kept in the key-value store and the `Api` operations over it: flag
 * submission, task creation and editing, scores, the task list, the scoreboard, per-user
 * conversation state and contact buffers, and who may play when.
 *
 * Key layout: `task:<id>` (a task), `solve:<user>` (the ledger of solved task keys),
 * `user_state:<user>` (the conversation state), `contact:<user>` (the contact buffer),
 * `user:<user>` (the cached club profile).
 */
module Api {
  import opened Wrappers
  import opened Strings
  import opened Sorting
  import opened KeyValue
  import opened Text
  import opened Sender

  type U64 = n: nat | n <= U64_MAX

  const TWO_64: int := U64_MAX + 1

  /** `x as i64` for a u64 `x`: two's complement reinterpretation. */
  function AsI64(u: U64): (r: int)
    ensures -(I64_MAX + 1) <= r <= I64_MAX
  {
    if u <= I64_MAX then u else u - TWO_64
  }

  /** `x as u64` for an i64 `x`. */
  function AsU64(t: int): U64 {
    t % TWO_64
  }

  /** The two casts undo each other on their ranges. */
  lemma CastsRoundTrip(u: U64, t: int)
    requires -(I64_MAX + 1) <= t <= I64_MAX
    ensures AsU64(AsI64(u)) == u
    ensures AsI64(AsU64(t)) == t
  {
  }

  datatype Config = Config(
    testGroup: seq<int>,
    adminGroup: seq<int>,
    notifyGroup: seq<int>,
    eventStart: nat,
    eventEnd: nat)

  /** Comparing `u as i64` with an i64 group entry is comparing `u` with the entry read as u64. */
  lemma ListedAsU64(group: seq<int>, u: U64)
    ensures AsI64(u) in group <==> exists g :: g in group && -(I64_MAX + 1) <= g <= I64_MAX && AsU64(g) == u
  {
    CastsRoundTrip(u, 0);
    forall g | g in group && -(I64_MAX + 1) <= g <= I64_MAX && AsU64(g) == u ensures AsI64(u) == g {
      CastsRoundTrip(u, g);
    }
  }

  /** `is_test_user`: some i64 entry of the test group, read as u64, is the id. */
  predicate IsTestUser(c: Config, u: U64)
    ensures IsTestUser(c, u) <==> exists g :: g in c.testGroup && -(I64_MAX + 1) <= g <= I64_MAX && AsU64(g) == u
  {
    ListedAsU64(c.testGroup, u);
    AsI64(u) in c.testGroup
  }

  /** `is_admin`: some i64 entry of the admin group, read as u64, is the id. */
  predicate IsAdmin(c: Config, u: U64)
    ensures IsAdmin(c, u) <==> exists g :: g in c.adminGroup && -(I64_MAX + 1) <= g <= I64_MAX && AsU64(g) == u
  {
    ListedAsU64(c.adminGroup, u);
    AsI64(u) in c.adminGroup
  }

  /**
   * `can_process_command` at `now` seconds since the epoch (0 for a clock before it): test and
   * admin users always; everyone else strictly inside the event window.
   */
  predicate CanProcessCommand(c: Config, u: U64, now: nat)
    ensures IsTestUser(c, u) || IsAdmin(c, u) ==> CanProcessCommand(c, u, now)
    ensures !(IsTestUser(c, u) || IsAdmin(c, u)) ==> (CanProcessCommand(c, u, now) <==> c.eventStart < now < c.eventEnd)
  {
    if now > c.eventStart && now < c.eventEnd then true else IsTestUser(c, u) || IsAdmin(c, u)
  }

  /**
   * Inside the open window everyone may play; outside it only test and admin users, and the
   * bounds themselves are outside. Ids above `i64::MAX` are matched through the wrapped cast:
   * `u64::MAX` is a test user exactly when -1 is listed.
   */
  lemma CanProcessCommandWindow(c: Config, u: U64, now: nat)
    ensures c.eventStart < now < c.eventEnd ==> CanProcessCommand(c, u, now)
    ensures !(c.eventStart < now < c.eventEnd) ==> (CanProcessCommand(c, u, now) <==> IsTestUser(c, u) || IsAdmin(c, u))
    ensures IsTestUser(c, U64_MAX) <==> -1 in c.testGroup
  {
  }

  // ---------------------------------------------------------------------------
  // Keys

  function SolveKey(u: U64): string { "solve:" + NatToString(u) }
  function StateKey(u: U64): string { "user_state:" + NatToString(u) }
  function ContactKey(u: U64): string { "contact:" + NatToString(u) }
  function TaskKey(id: string): string { "task:" + id }

  /** Each kind of key lives in its own namespace, and one user's key is not another's. */
  lemma KeysDistinct(u: U64, v: U64, id: string)
    ensures StartsWith(TaskKey(id), "task:")
    ensures !StartsWith(SolveKey(u), "task:") && !StartsWith(StateKey(u), "task:") && !StartsWith(ContactKey(u), "task:")
    ensures !StartsWith(SolveKey(u), "user:") && !StartsWith(StateKey(u), "user:") && !StartsWith(ContactKey(u), "user:")
    ensures StateKey(u) != ContactKey(v) && StateKey(u) != SolveKey(v) && StateKey(u) != TaskKey(id)
    ensures ContactKey(u) != SolveKey(v) && ContactKey(u) != TaskKey(id) && SolveKey(u) != TaskKey(id)
    ensures u != v ==> SolveKey(u) != SolveKey(v) && StateKey(u) != StateKey(v) && ContactKey(u) != ContactKey(v)
  {
    assert TaskKey(id)[..5] == "task:";
    assert SolveKey(u)[0] == 's' && StateKey(u)[0] == 'u' && ContactKey(u)[0] == 'c' && TaskKey(id)[0] == 't';
    assert SolveKey(v)[0] == 's' && ContactKey(v)[0] == 'c';
    assert StateKey(u)[1] == 's' && StateKey(u)[4] == '_';
    if u != v {
      NatToStringInjective(u, v);
      assert SolveKey(u)[6..] == NatToString(u) && SolveKey(v)[6..] == NatToString(v);
      assert StateKey(u)[11..] == NatToString(u) && StateKey(v)[11..] == NatToString(v);
      assert ContactKey(u)[8..] == NatToString(u) && ContactKey(v)[8..] == NatToString(v);
    }
  }

  // ---------------------------------------------------------------------------
  // Flag submission

  datatype SubmissionResult = NotAFlag | AlreadySolved | Solved(name: string)

  /** The submitted text as compared: trimmed, then lowercased. */
  function Normalize(text: string): (r: string)
    ensures Trimmed(r) && IsLowercase(r)
  {
    var t := Trim(text);
    LowerProperties(t);
    Lower(t)
  }

  /** Normalising twice is normalising once. */
  lemma NormalizeIdempotent(text: string)
    ensures Normalize(Normalize(text)) == Normalize(text)
  {
    var r := Normalize(text);
    LowerProperties(r);
  }

  /** A single answer matches by equality, a set of answers by membership. */
  predicate FlagMatches(flag: FlagType, attempt: string) {
    match flag
    case Single(answer) => answer == attempt
    case Multi(answers) => attempt in answers
  }

  /** The key holds a decodable task whose flag accepts `attempt`; hidden tasks included. */
  predicate Matches(st: Store, key: string, attempt: string) {
    st.ReadTask(key).Some? && FlagMatches(st.ReadTask(key).value.flag, attempt)
  }

  /** The position of the first key in `keys` that matches, or `|keys|`. */
  function FirstMatch(st: Store, keys: seq<string>, attempt: string): (i: nat)
    ensures i <= |keys|
    ensures i < |keys| ==> Matches(st, keys[i], attempt)
    ensures forall j :: 0 <= j < i ==> !Matches(st, keys[j], attempt)
  {
    if keys == [] then 0
    else if Matches(st, keys[0], attempt) then 0
    else 1 + FirstMatch(st, keys[1..], attempt)
  }

  lemma FirstMatchUnique(st: Store, keys: seq<string>, attempt: string, i: nat)
    requires i <= |keys|
    requires i < |keys| ==> Matches(st, keys[i], attempt)
    requires forall j :: 0 <= j < i ==> !Matches(st, keys[j], attempt)
    ensures FirstMatch(st, keys, attempt) == i
  {
  }

  /** The user's ledger; a missing or undecodable one reads as empty. */
  function Ledger(st: Store, u: U64): seq<string> {
    st.ReadSolve(SolveKey(u)).GetOr([])
  }

  /** `is_solved` */
  predicate SolvedIn(st: Store, u: U64, taskKey: string) {
    taskKey in Ledger(st, u)
  }

  /** `set_solved`: the ledger with the key pushed, created when absent. */
  function WithSolved(st: Store, u: U64, taskKey: string): Store {
    st.Put(SolveKey(u), SolveValue(Ledger(st, u) + [taskKey]))
  }

  /** `try_submit_flag` as a function of the store: the result and the store afterwards. */
  function Submit(st: Store, u: U64, text: string): (SubmissionResult, Store) {
    var keys := st.Keys("task:");
    var i := FirstMatch(st, keys, Normalize(text));
    if i == |keys| then (NotAFlag, st)
    else if SolvedIn(st, u, keys[i]) then (AlreadySolved, st)
    else (Solved(st.ReadTask(keys[i]).value.name), WithSolved(st, u, keys[i]))
  }

  /** Setting a ledger entry touches that one key: every other key reads as before. */
  lemma WithSolvedFrame(st: Store, u: U64, taskKey: string)
    ensures Ledger(WithSolved(st, u, taskKey), u) == Ledger(st, u) + [taskKey]
    ensures forall v: U64 :: v != u ==> Ledger(WithSolved(st, u, taskKey), v) == Ledger(st, v)
    ensures WithSolved(st, u, taskKey).Keys("task:") == st.Keys("task:")
    ensures forall k :: StartsWith(k, "task:") ==> WithSolved(st, u, taskKey).ReadTask(k) == st.ReadTask(k)
    ensures st.Valid() ==> WithSolved(st, u, taskKey).Valid()
  {
    var st' := WithSolved(st, u, taskKey);
    forall v: U64 | v != u ensures Ledger(st', v) == Ledger(st, v) {
      SolveKeyInjective(u, v);
    }
    SolveKeyOutsideTasks(u);
    KeysAfterPut(st, SolveKey(u), SolveValue(Ledger(st, u) + [taskKey]), "task:");
  }

  lemma SolveKeyInjective(u: U64, v: U64)
    requires u != v
    ensures SolveKey(u) != SolveKey(v)
  {
    NatToStringInjective(u, v);
    assert SolveKey(u)[6..] == NatToString(u) && SolveKey(v)[6..] == NatToString(v);
  }

  lemma SolveKeyOutsideTasks(u: U64)
    ensures !StartsWith(SolveKey(u), "task:")
    ensures forall k :: StartsWith(k, "task:") ==> k != SolveKey(u)
  {
    assert SolveKey(u)[0] == 's';
  }

  /** Nothing matches exactly when the result is `NotAFlag`, and then the store is unchanged. */
  lemma SubmitNotAFlag(st: Store, u: U64, text: string)
    ensures Submit(st, u, text).0 == NotAFlag <==>
      forall k :: k in st.Keys("task:") ==> !Matches(st, k, Normalize(text))
    ensures Submit(st, u, text).0 == NotAFlag ==> Submit(st, u, text).1 == st
  {
    var keys := st.Keys("task:");
    var i := FirstMatch(st, keys, Normalize(text));
    if i == |keys| {
      forall k | k in keys ensures !Matches(st, k, Normalize(text)) {
        var j :| 0 <= j < |keys| && keys[j] == k;
      }
    }
  }

  /**
   * The first matching task in enumeration order decides: an earlier-solved task gives
   * `AlreadySolved` and no change; otherwise its key is appended once to the ledger and its
   * name is reported.
   */
  lemma SubmitFirstMatch(st: Store, u: U64, text: string)
    ensures var keys := st.Keys("task:");
      var (r, st') := Submit(st, u, text);
      r != NotAFlag ==> exists i :: (
        && 0 <= i < |keys| && Matches(st, keys[i], Normalize(text))
        && (forall j :: 0 <= j < i ==> !Matches(st, keys[j], Normalize(text)))
        && (r == AlreadySolved <==> SolvedIn(st, u, keys[i]))
        && (r == AlreadySolved ==> st' == st)
        && (r.Solved? ==> (r.name == st.ReadTask(keys[i]).value.name
                           && Ledger(st', u) == Ledger(st, u) + [keys[i]])))
  {
    var keys := st.Keys("task:");
    var i := FirstMatch(st, keys, Normalize(text));
    if i < |keys| {
      WithSolvedFrame(st, u, keys[i]);
    }
  }

  /** A duplicate-free ledger stays duplicate-free, and other users' ledgers are untouched. */
  lemma SubmitKeepsLedgerDistinct(st: Store, u: U64, text: string)
    requires Distinct(Ledger(st, u))
    ensures Distinct(Ledger(Submit(st, u, text).1, u))
    ensures forall v: U64 :: v != u ==> Ledger(Submit(st, u, text).1, v) == Ledger(st, v)
  {
    var keys := st.Keys("task:");
    var i := FirstMatch(st, keys, Normalize(text));
    if i < |keys| && !SolvedIn(st, u, keys[i]) {
      WithSolvedFrame(st, u, keys[i]);
      DistinctAppend(Ledger(st, u), keys[i]);
    }
  }

  /** Submitting a flag again after it was credited gives `AlreadySolved` and changes nothing. */
  lemma SubmitTwice(st: Store, u: U64, text: string)
    requires Submit(st, u, text).0.Solved?
    ensures Submit(Submit(st, u, text).1, u, text) == (AlreadySolved, Submit(st, u, text).1)
  {
    var keys := st.Keys("task:");
    var attempt := Normalize(text);
    var i := FirstMatch(st, keys, attempt);
    var st' := WithSolved(st, u, keys[i]);
    WithSolvedFrame(st, u, keys[i]);
    forall j | 0 <= j < |keys| ensures Matches(st', keys[j], attempt) == Matches(st, keys[j], attempt) {
      assert keys[j] in st.Keys("task:");
    }
    FirstMatchUnique(st', keys, attempt, i);
  }

  // ---------------------------------------------------------------------------
  // Parsing a task from an admin's message

  const TOO_FEW_LINES: string := "Должно быть 3 или больше строки: имя, флаг, описание."

  /** Each flag piece trimmed and lowercased, the same normalisation a submission gets. */
  function NormalizeAll(parts: seq<string>): (r: seq<string>)
    ensures |r| == |parts| && forall i :: 0 <= i < |parts| ==> r[i] == Normalize(parts[i])
  {
    seq(|parts|, i requires 0 <= i < |parts| => Normalize(parts[i]))
  }

  function FlagAnswers(flag: FlagType): seq<string> {
    match flag
    case Single(answer) => [answer]
    case Multi(answers) => answers
  }

  /** Every answer of the flag is already in its normal form. */
  predicate NormalizedAnswers(flag: FlagType) {
    forall a :: a in FlagAnswers(flag) ==> Normalize(a) == a
  }

  /** The flag line: one answer without a ',', several with; every answer normalised. */
  function ParseFlag(line: string): (flag: FlagType)
    ensures flag.Single? <==> ',' !in line
    ensures NormalizedAnswers(flag)
  {
    var parts := NormalizeAll(Split(line, ','));
    SplitSingle(line, ',');
    NormalizeAllNormal(Split(line, ','));
    if |parts| == 1 then Single(parts[0]) else Multi(parts)
  }

  lemma NormalizeAllNormal(xs: seq<string>)
    ensures forall a :: a in NormalizeAll(xs) ==> Normalize(a) == a
  {
    forall a | a in NormalizeAll(xs) ensures Normalize(a) == a {
      var i :| 0 <= i < |xs| && NormalizeAll(xs)[i] == a;
      NormalizeIdempotent(xs[i]);
    }
  }

  /** The first line: a `hidden:` prefix marks the task hidden and is dropped; the rest is trimmed. */
  function ParseName(line: string): (r: (string, bool))
    ensures Trimmed(r.0)
    ensures r.1 <==> StartsWith(line, "hidden:")
    ensures r.1 ==> r.0 == Trim(line[7..])
    ensures !r.1 ==> r.0 == Trim(line)
  {
    if StartsWith(line, "hidden:") then (Trim(line[7..]), true) else (Trim(line), false)
  }

  /** `string_to_task` on the trimmed lines of the message. */
  function TaskOfLines(lines: seq<string>): (r: Result<Task, string>)
    ensures r.Failure? <==> |lines| < 3
    ensures r.Failure? ==> r.error == TOO_FEW_LINES
    ensures r.Success? ==> r.value.id == "" && Trimmed(r.value.name) && Trimmed(r.value.hint)
    ensures r.Success? ==> NormalizedAnswers(r.value.flag)
  {
    if |lines| < 3 then Failure(TOO_FEW_LINES)
    else
      var (name, hidden) := ParseName(lines[0]);
      Success(Task(name, ParseFlag(lines[1]), Trim(Join(lines[2..], "\n")), "", hidden))
  }

  /**
   * `string_to_task`: fewer than three lines is an error; otherwise the first line names the
   * task, the second holds its flag and the rest, joined back, is its hint.
   */
  function StringToTask(text: string): (r: Result<Task, string>)
    ensures r.Failure? <==> |Lines(text)| < 3
    ensures r.Failure? ==> r.error == TOO_FEW_LINES
    ensures r.Success? ==> r.value.id == "" && Trimmed(r.value.name) && Trimmed(r.value.hint)
    ensures r.Success? ==> NormalizedAnswers(r.value.flag)
  {
    TaskOfLines(TrimAll(Lines(text)))
  }

  /** A parsed answer, typed back exactly as stored, is accepted by the submission check. */
  lemma ParsedAnswersAccepted(text: string)
    requires StringToTask(text).Success?
    ensures forall a :: a in FlagAnswers(StringToTask(text).value.flag) ==>
      FlagMatches(StringToTask(text).value.flag, Normalize(a))
  {
  }

  /** A task that the parser can reproduce from the fields `format_task_admin` shows. */
  ghost predicate WellFormed(t: Task) {
    && Trimmed(t.name) && '\n' !in t.name && !StartsWith(t.name, "hidden:")
    && t.hint != "" && Trimmed(t.hint)
    && (forall l :: l in Split(t.hint, '\n') ==> Trimmed(l))
    && (forall a :: a in FlagAnswers(t.flag) ==> Normalize(a) == a && ',' !in a && '\n' !in a)
    && (t.flag.Multi? ==> |t.flag.answers| >= 2)
  }

  function FirstLine(t: Task): string {
    (if t.hidden then "hidden:" else "") + t.name
  }

  /** Pasting back the fields an admin is shown restores the task (its id comes from the key). */
  lemma EditRoundTrip(t: Task)
    requires WellFormed(t)
    ensures StringToTask(AdminFields(t)) == Success(t.(id := ""))
  {
    FieldLines(t);
    TaskOfFieldLines(t);
  }

  /** The trimmed lines of the admin fields: the first line, the flag text, then the hint's lines. */
  lemma FieldLines(t: Task)
    requires WellFormed(t)
    ensures TrimAll(Lines(AdminFields(t))) == [FirstLine(t), FlagText(t.flag)] + Split(t.hint, '\n')
  {
    LinesOfFields(t);
    FirstLineTrimmed(t);
    FlagTextTrimmed(t.flag);
    TrimAllTrimmed([FirstLine(t), FlagText(t.flag)] + Split(t.hint, '\n'));
  }

  lemma TaskOfFieldLines(t: Task)
    requires WellFormed(t)
    ensures TaskOfLines([FirstLine(t), FlagText(t.flag)] + Split(t.hint, '\n')) == Success(t.(id := ""))
  {
    var hintLines := Split(t.hint, '\n');
    var lines := [FirstLine(t), FlagText(t.flag)] + hintLines;
    DropTwo(FirstLine(t), FlagText(t.flag), hintLines);
    var name := ParseName(lines[0]);
    var flag := ParseFlag(lines[1]);
    var hint := Trim(Join(lines[2..], "\n"));
    assert hint == t.hint by {
      JoinSplit(t.hint, '\n');
    }
    assert name == (t.name, t.hidden) by {
      ParseNameOfFirstLine(t);
    }
    assert flag == t.flag by {
      FlagTextSplits(t.flag);
    }
    assert TaskOfLines(lines) == Success(Task(name.0, flag, hint, "", name.1));
  }

  lemma LinesOfFields(t: Task)
    requires WellFormed(t)
    ensures Lines(AdminFields(t)) == [FirstLine(t), FlagText(t.flag)] + Split(t.hint, '\n')
  {
    FlagTextNoSeparator(t.flag, '\n');
    assert IsWhitespace('\n');
    LinesOfThree(FirstLine(t), FlagText(t.flag), t.hint);
  }

  lemma TrimAllTrimmed(ls: seq<string>)
    requires forall l :: l in ls ==> Trimmed(l)
    ensures TrimAll(ls) == ls
  {
    assert forall i :: 0 <= i < |ls| ==> ls[i] in ls;
  }

  lemma ParseNameOfFirstLine(t: Task)
    requires Trimmed(t.name) && !StartsWith(t.name, "hidden:")
    ensures ParseName(FirstLine(t)) == (t.name, t.hidden)
  {
    var first := FirstLine(t);
    var r := ParseName(first);
    if t.hidden {
      assert first == "hidden:" + t.name;
      assert first[..7] == "hidden:";
      assert r.1;
      assert first[7..] == t.name;
    } else {
      assert first == t.name;
      assert !r.1;
    }
  }

  lemma FlagTextNoSeparator(flag: FlagType, c: char)
    requires c != ','
    requires forall a :: a in FlagAnswers(flag) ==> c !in a
    ensures c !in FlagText(flag)
  {
    if flag.Multi? {
      JoinAvoids(flag.answers, c);
    }
  }

  lemma {:induction false} JoinAvoids(parts: seq<string>, c: char)
    requires c != ','
    requires forall a :: a in parts ==> c !in a
    ensures c !in Join(parts, ",")
  {
    if |parts| > 1 {
      assert parts[0] in parts;
      assert forall a :: a in parts[1..] ==> a in parts;
      JoinAvoids(parts[1..], c);
    } else if |parts| == 1 {
      assert parts[0] in parts;
    }
  }

  lemma FirstLineTrimmed(t: Task)
    requires Trimmed(t.name)
    ensures Trimmed(FirstLine(t))
  {
    var first := FirstLine(t);
    if t.hidden {
      assert first[0] == 'h';
      assert first[|first| - 1] == if t.name == [] then ':' else t.name[|t.name| - 1];
    }
  }

  lemma FlagTextTrimmed(flag: FlagType)
    requires NormalizedAnswers(flag)
    ensures Trimmed(FlagText(flag))
  {
    match flag
    case Single(a) =>
      assert a in FlagAnswers(flag);
    case Multi(answers) =>
      forall i | 0 <= i < |answers| ensures Trimmed(answers[i]) {
        assert answers[i] in FlagAnswers(flag);
      }
      JoinTrimmed(answers, ",");
  }

  lemma FlagTextSplits(flag: FlagType)
    requires forall a :: a in FlagAnswers(flag) ==> Normalize(a) == a && ',' !in a
    requires flag.Multi? ==> |flag.answers| >= 2
    ensures ParseFlag(FlagText(flag)) == flag
  {
    var answers := FlagAnswers(flag);
    assert forall i :: 0 <= i < |answers| ==> ',' !in answers[i] && Normalize(answers[i]) == answers[i] by {
      forall i | 0 <= i < |answers| ensures ',' !in answers[i] && Normalize(answers[i]) == answers[i] {
        assert answers[i] in answers;
      }
    }
    assert Split(FlagText(flag), ',') == answers by {
      if flag.Multi? {
        SplitJoin(answers, ',');
      }
    }
    NormalizeAllFixed(answers);
  }

  lemma NormalizeAllFixed(xs: seq<string>)
    requires forall i :: 0 <= i < |xs| ==> Normalize(xs[i]) == xs[i]
    ensures NormalizeAll(xs) == xs
  {
  }

  // ---------------------------------------------------------------------------
  // Scores

  /** A ledger's score: its length; a key that does not decode as a ledger scores 0. */
  function LedgerScore(st: Store, key: string): nat {
    if st.ReadSolve(key).Some? then |st.ReadSolve(key).value| else 0
  }

  /** The (key, score) pairs in the order the keys are listed. */
  function ScoreEntries(st: Store, keys: seq<string>): (es: seq<(string, nat)>)
    ensures |es| == |keys|
    ensures forall i :: 0 <= i < |keys| ==> es[i] == (keys[i], LedgerScore(st, keys[i]))
  {
    seq(|keys|, i requires 0 <= i < |keys| => (keys[i], LedgerScore(st, keys[i])))
  }

  /** `get_score` as a function of the store: (place, score). */
  function ScoreOf(st: Store, c: Config, u: U64): (nat, nat) {
    var es := ScoreEntries(st, st.Keys("solve:"));
    var sorted := SortBy(es, ScoreAtLeast);
    var i := IndexOfKey(sorted, SolveKey(u));
    var place := if i < |sorted| then i + 1 else |es| + 1;
    var score := if i < |sorted| then sorted[i].1 else 0;
    if Hidden(c, u) then (U64_MAX, score) else (place, score)
  }

  predicate Hidden(c: Config, u: U64) {
    IsTestUser(c, u) || IsAdmin(c, u)
  }

  /**
   * The score is the length of the user's ledger (0 without one). The place is one more than
   * the number of ledgers scoring more plus the number of equal-scoring ledgers listed before
   * it; without a ledger it is one past the last; a test or admin user gets `u64::MAX`.
   */
  lemma ScoreRank(st: Store, c: Config, u: U64)
    requires st.Valid()
    ensures Hidden(c, u) ==> ScoreOf(st, c, u).0 == U64_MAX
    ensures SolveKey(u) !in st.Keys("solve:") ==>
      ScoreOf(st, c, u).1 == 0 && (Hidden(c, u) || ScoreOf(st, c, u).0 == |st.Keys("solve:")| + 1)
    ensures forall i :: 0 <= i < |st.Keys("solve:")| && st.Keys("solve:")[i] == SolveKey(u) ==>
      var es := ScoreEntries(st, st.Keys("solve:"));
      ScoreOf(st, c, u).1 == LedgerScore(st, SolveKey(u))
      && (Hidden(c, u) || ScoreOf(st, c, u).0 == CountAbove(es, es[i].1) + CountTiedBefore(es, i) + 1)
  {
    var keys := st.Keys("solve:");
    var es := ScoreEntries(st, keys);
    if SolveKey(u) !in keys {
      AbsentAfterSort(es, SolveKey(u));
    }
    forall i | 0 <= i < |keys| && keys[i] == SolveKey(u)
      ensures ScoreOf(st, c, u).1 == LedgerScore(st, SolveKey(u))
        && (Hidden(c, u) || ScoreOf(st, c, u).0 == CountAbove(es, es[i].1) + CountTiedBefore(es, i) + 1)
    {
      ScoreRankAt(st, keys, i);
    }
  }

  lemma ScoreRankAt(st: Store, keys: seq<string>, i: nat)
    requires Distinct(keys) && i < |keys|
    ensures var es := ScoreEntries(st, keys);
      var sorted := SortBy(es, ScoreAtLeast);
      var p := CountAbove(es, es[i].1) + CountTiedBefore(es, i);
      IndexOfKey(sorted, keys[i]) == p && p < |sorted| && sorted[p].1 == LedgerScore(st, keys[i])
  {
    var es := ScoreEntries(st, keys);
    var sorted := SortBy(es, ScoreAtLeast);
    var p := CountAbove(es, es[i].1) + CountTiedBefore(es, i);
    assert es[i].0 == keys[i] && es[i].1 == LedgerScore(st, keys[i]);
    assert IndexOfKey(sorted, es[i].0) == p && p < |sorted| && sorted[p] == es[i] by {
      EntriesDistinct(st, keys);
      PositionAfterSort(es, i);
    }
  }

  lemma EntriesDistinct(st: Store, keys: seq<string>)
    requires Distinct(keys)
    ensures DistinctKeys(ScoreEntries(st, keys))
  {
    var es := ScoreEntries(st, keys);
    forall i, j | 0 <= i < j < |es| ensures es[i].0 != es[j].0 {
      assert es[i].0 == keys[i] && es[j].0 == keys[j];
    }
  }

  // ---------------------------------------------------------------------------
  // Task listing

  function NameLe(a: Task, b: Task): bool {
    LexLe(a.name, b.name)
  }

  lemma NameLeIsPreorder()
    ensures Total(NameLe) && Transitive(NameLe)
  {
    forall a: Task, b: Task ensures NameLe(a, b) || NameLe(b, a) {
      LexLeTotal(a.name, b.name);
    }
    forall a: Task, b: Task, c: Task | NameLe(a, b) && NameLe(b, c) ensures NameLe(a, c) {
      LexLeTransitive(a.name, b.name, c.name);
    }
  }

  /** The key holds a visible task that `u` has not solved; user 0 is the admin view that ignores ledgers. */
  predicate Listed(st: Store, u: U64, key: string) {
    (u == 0 || !SolvedIn(st, u, key)) && st.ReadTask(key).Some? && !st.ReadTask(key).value.hidden
  }

  /** The listed tasks of `keys`, in key order. */
  function OpenTasks(st: Store, u: U64, keys: seq<string>): (ts: seq<Task>)
    ensures forall t :: t in ts <==> exists k :: k in keys && Listed(st, u, k) && st.ReadTask(k) == Some(t)
    ensures forall t :: t in ts ==> !t.hidden
  {
    if keys == [] then []
    else
      var k := keys[|keys| - 1];
      var init := keys[..|keys| - 1];
      assert forall k' :: k' in keys <==> k' in init || k' == k;
      OpenTasks(st, u, init) + (if Listed(st, u, k) then [st.ReadTask(k).value] else [])
  }

  /** `list_tasks` as a function of the store. */
  /** One more key adds its task exactly when it is listed. */
  lemma OpenTasksStep(st: Store, u: U64, keys: seq<string>, i: nat)
    requires i < |keys|
    ensures OpenTasks(st, u, keys[..i + 1]) ==
      OpenTasks(st, u, keys[..i]) + (if Listed(st, u, keys[i]) then [st.ReadTask(keys[i]).value] else [])
  {
    assert keys[..i + 1][..i] == keys[..i];
  }

  function TaskList(st: Store, u: U64): seq<Task> {
    SortBy(OpenTasks(st, u, st.Keys("task:")), NameLe)
  }

  /**
   * The list holds exactly the visible tasks the user has not solved (every task for user 0),
   * as a permutation of their key order, sorted by name.
   */
  lemma TaskListProperties(st: Store, u: U64)
    ensures var ts := TaskList(st, u);
      && SortedBy(ts, NameLe)
      && multiset(ts) == multiset(OpenTasks(st, u, st.Keys("task:")))
      && (forall t :: t in ts ==> !t.hidden)
      && (forall t :: t in ts <==> exists k :: k in st.Keys("task:") && Listed(st, u, k) && st.ReadTask(k) == Some(t))
  {
    NameLeIsPreorder();
    SortBySorted(OpenTasks(st, u, st.Keys("task:")), NameLe);
    var ts := TaskList(st, u);
    var open := OpenTasks(st, u, st.Keys("task:"));
    forall t ensures t in ts <==> t in open {
      assert t in ts <==> t in multiset(ts);
      assert t in open <==> t in multiset(open);
    }
  }

  // ---------------------------------------------------------------------------
  // Scoreboard

  /** One scoreboard entry for a `user:` key: its profile, and 0 for a test user or the ledger length. */
  function BoardEntry(st: Store, c: Config, key: string): Option<(Profile, nat)>
    requires StartsWith(key, "user:")
  {
    match st.ReadProfile(key)
    case None => None
    case Some(p) =>
      Some((p, if IsTestUser(c, AsU64(p.telegramId)) then 0 else LedgerScore(st, "solve:" + key[5..])))
  }

  /** The entries of `keys`, in key order, skipping keys without a readable profile. */
  function BoardEntries(st: Store, c: Config, keys: seq<string>): (es: seq<(Profile, nat)>)
    requires forall k :: k in keys ==> StartsWith(k, "user:")
    ensures forall e :: e in es <==> exists k :: k in keys && BoardEntry(st, c, k) == Some(e)
    ensures |es| <= |keys|
  {
    if keys == [] then []
    else
      var k := keys[|keys| - 1];
      var init := keys[..|keys| - 1];
      assert forall k' :: k' in keys <==> k' in init || k' == k;
      var e := BoardEntry(st, c, k);
      BoardEntries(st, c, init) + (if e.Some? then [e.value] else [])
  }

  /** `get_scoreboard` as a function of the store. */
  function Scoreboard(st: Store, c: Config): seq<(Profile, nat)> {
    SortBy(BoardEntries(st, c, st.Keys("user:")), ScoreAtLeast)
  }

  /**
   * The board is sorted by descending score, holds exactly one entry per listed profile, and a
   * test user's entry shows 0 whatever the ledger says.
   */
  lemma ScoreboardProperties(st: Store, c: Config)
    ensures var board := Scoreboard(st, c);
      && SortedBy(board, ScoreAtLeast)
      && multiset(board) == multiset(BoardEntries(st, c, st.Keys("user:")))
      && (forall e :: e in board <==> exists k :: k in st.Keys("user:") && BoardEntry(st, c, k) == Some(e))
      && (forall e :: e in board && e.0.telegramId in c.testGroup ==> e.1 == 0)
  {
    var entries := BoardEntries(st, c, st.Keys("user:"));
    var board := Scoreboard(st, c);
    SortedByScore(entries);
    assert forall e :: e in board <==> e in entries by {
      SameElements(board, entries);
    }
    forall e | e in board && e.0.telegramId in c.testGroup ensures e.1 == 0 {
      var k :| k in st.Keys("user:") && BoardEntry(st, c, k) == Some(e);
      TestUserEntry(st, c, k);
    }
  }

  lemma SameElements<T>(a: seq<T>, b: seq<T>)
    requires multiset(a) == multiset(b)
    ensures forall e :: e in a <==> e in b
  {
    forall e ensures e in a <==> e in b {
      assert e in a <==> e in multiset(a);
      assert e in b <==> e in multiset(b);
    }
  }

  /** The entry of a profile whose id is in the test group shows 0. */
  lemma TestUserEntry(st: Store, c: Config, k: string)
    requires StartsWith(k, "user:")
    ensures BoardEntry(st, c, k).Some? && BoardEntry(st, c, k).value.0.telegramId in c.testGroup ==>
      BoardEntry(st, c, k).value.1 == 0
  {
    var t := ParseI64(LastSegment(k, ':')).GetOr(0);
    CastsRoundTrip(0, t);
  }

  /** `get_all_users`: the numeric part of each `user:` key, 0 where it is not a u64. */
  function AllUsers(st: Store): (ids: seq<U64>)
    ensures |ids| == |st.Keys("user:")|
  {
    var keys := st.Keys("user:");
    seq(|keys|, i requires 0 <= i < |keys| => ParseU64(LastSegment(keys[i], ':')).GetOr(0))
  }

  /** The id recovered from `user:<n>` is `n`. */
  lemma AllUsersRecoversIds(st: Store, i: nat, n: U64)
    requires i < |st.Keys("user:")| && st.Keys("user:")[i] == "user:" + NatToString(n)
    ensures AllUsers(st)[i] == n
  {
    assert "user:" + NatToString(n) == "user" + [':'] + NatToString(n);
    assert ':' !in NatToString(n);
    LastSegmentAfterSeparator("user", ':', NatToString(n));
    ParseNatToString(n);
  }

  // ---------------------------------------------------------------------------
  // Conversation state and contact buffers

  /** `get_user_state`: a stored empty string means no state. */
  function UserState(st: Store, u: U64): (r: Option<string>)
    ensures r.Some? ==> r.value != "" && st.ReadText(StateKey(u)) == r
    ensures r.None? ==> st.ReadText(StateKey(u)) in {None, Some("")}
  {
    match st.ReadText(StateKey(u))
    case Some(s) => if s == "" then None else Some(s)
    case None => None
  }

  /** Writing a state reads back as that state, the empty one as none; other users keep theirs. */
  lemma UserStateAfterSet(st: Store, u: U64, s: string)
    ensures UserState(st.Put(StateKey(u), TextValue(s)), u) == if s == "" then None else Some(s)
    ensures forall v: U64 :: v != u ==> UserState(st.Put(StateKey(u), TextValue(s)), v) == UserState(st, v)
  {
    forall v: U64 | v != u ensures UserState(st.Put(StateKey(u), TextValue(s)), v) == UserState(st, v) {
      KeysDistinct(u, v, "");
    }
  }

  /** `append_to_contact`: the old buffer, a line feed and the text; just the text when there is no buffer. */
  function Appended(prev: Option<string>, text: string): (r: string)
    ensures prev.None? ==> r == text
    ensures prev.Some? ==> r == Join([prev.value, text], "\n")
    ensures EndsWith(r, text)
  {
    assert prev.Some? ==> Join([prev.value, text], "\n") == prev.value + "\n" + Join([text], "\n");
    if prev.Some? then prev.value + "\n" + text else text
  }

  /** The buffer after a series of appends. */
  function AppendAll(prev: Option<string>, texts: seq<string>): Option<string>
    decreases |texts|
  {
    if texts == [] then prev else AppendAll(Some(Appended(prev, texts[0])), texts[1..])
  }

  /**
   * Appends accumulate the texts joined by line feeds. After `retrieve_and_erase_contact` the
   * buffer holds "" rather than nothing, so the next message starts with a line feed.
   */
  lemma ContactAccumulates(p: string, texts: seq<string>)
    ensures AppendAll(Some(p), texts) == Some(Join([p] + texts, "\n"))
    ensures texts != [] ==> AppendAll(None, texts) == Some(Join(texts, "\n"))
    ensures texts != [] && p == "" ==> AppendAll(Some(p), texts) == Some("\n" + Join(texts, "\n"))
  {
    AppendAllJoins(p, texts);
    if texts != [] {
      AppendAllJoins(texts[0], texts[1..]);
      HeadTail(texts);
      JoinCons(p, texts);
      assert p == "" ==> p + "\n" + Join(texts, "\n") == "\n" + Join(texts, "\n");
    }
  }

  lemma {:induction false} AppendAllJoins(p: string, texts: seq<string>)
    ensures AppendAll(Some(p), texts) == Some(Join([p] + texts, "\n"))
    decreases |texts|
  {
    if texts != [] {
      var t0 := texts[0];
      var rest := texts[1..];
      AppendAllJoins(p + "\n" + t0, rest);
      AppendStep(p, t0, rest);
      HeadTail(texts);
    }
  }

  /** Joining after a first append is joining with the text added. */
  lemma AppendStep(p: string, t0: string, rest: seq<string>)
    ensures Join([p + "\n" + t0] + rest, "\n") == Join([p] + ([t0] + rest), "\n")
  {
    JoinCons(p + "\n" + t0, rest);
    JoinCons(p, [t0] + rest);
    JoinCons(t0, rest);
    if rest != [] {
      var j := Join(rest, "\n");
      assert (p + "\n" + t0) + "\n" + j == p + "\n" + (t0 + "\n" + j);
    }
  }

  lemma JoinCons(p: string, texts: seq<string>)
    ensures Join([p] + texts, "\n") == if texts == [] then p else p + "\n" + Join(texts, "\n")
  {
    TailOfCons(p, texts);
  }

  /** The messages `send_notification` queues: `text` to each member of the notify group, in order. */
  function Notification(c: Config, text: string): (ms: seq<Message>)
    ensures |ms| == |c.notifyGroup|
    ensures forall i :: 0 <= i < |ms| ==> ms[i].chat == c.notifyGroup[i] && ms[i].text == text && ms[i].markup.None?
  {
    seq(|c.notifyGroup|, i requires 0 <= i < |c.notifyGroup| => FromText(c.notifyGroup[i], text))
  }

  // ---------------------------------------------------------------------------
  // Task creation

  /**
   * The index of the first token whose `task:` key holds no task, or `|tokens|` when every
   * one is taken: the token `create_task` settles on.
   */
  function FirstFree(st: Store, tokens: seq<string>): (i: nat)
    ensures i <= |tokens|
    ensures i < |tokens| ==> st.ReadTask(TaskKey(tokens[i])).None?
    ensures forall j :: 0 <= j < i ==> st.ReadTask(TaskKey(tokens[j])).Some?
  {
    if tokens == [] then 0
    else if st.ReadTask(TaskKey(tokens[0])).None? then 0
    else 1 + FirstFree(st, tokens[1..])
  }

  /** A free token with only taken ones before it is the one `FirstFree` finds; one exists when any token is free. */
  lemma FirstFreeUnique(st: Store, tokens: seq<string>, i: nat)
    requires i < |tokens| && st.ReadTask(TaskKey(tokens[i])).None?
    ensures FirstFree(st, tokens) <= i
    ensures (forall j :: 0 <= j < i ==> st.ReadTask(TaskKey(tokens[j])).Some?) ==> FirstFree(st, tokens) == i
  {
  }

  // ---------------------------------------------------------------------------
  // The `Api` object: the store it owns, the messages it hands to the sender, its configuration

  class Api {
    var store: Store
    /** Every message handed to the delivery queue, in order. */
    var outbox: seq<Message>
    const config: Config

    ghost predicate Valid()
      reads this
    {
      store.Valid()
    }

    constructor (config: Config, store: Store)
      requires store.Valid()
      ensures Valid()
      ensures this.config == config && this.store == store && outbox == []
    {
      this.config := config;
      this.store := store;
      outbox := [];
    }

    /** `send_message` */
    method SendMessage(to: int, text: string)
      modifies this
      ensures outbox == old(outbox) + [FromText(to, text)]
      ensures store == old(store)
    {
      outbox := outbox + [FromText(to, text)];
    }

    /** `send_message_with_markup` */
    method SendMessageWithMarkup(to: int, text: string, markup: Markup)
      modifies this
      ensures outbox == old(outbox) + [FromTextWithMarkup(to, text, markup)]
      ensures store == old(store)
    {
      outbox := outbox + [FromTextWithMarkup(to, text, markup)];
    }

    /** `send_notification`: one copy to each member of the notify group, in order. */
    method SendNotification(text: string)
      modifies this
      ensures outbox == old(outbox) + Notification(config, text)
      ensures store == old(store)
    {
      var sent: seq<Message> := [];
      for i := 0 to |config.notifyGroup|
        invariant sent == seq(i, j requires 0 <= j < i => FromText(config.notifyGroup[j], text))
        invariant outbox == old(outbox) + sent
        invariant store == old(store)
      {
        SendMessage(config.notifyGroup[i], text);
        sent := sent + [FromText(config.notifyGroup[i], text)];
      }
    }

    /** `is_solved` */
    method IsSolved(u: U64, taskKey: string) returns (b: bool)
      ensures b <==> SolvedIn(store, u, taskKey)
    {
      var ledger := store.ReadSolve(SolveKey(u));
      b := ledger.Some? && taskKey in ledger.value;
    }

    /** `set_solved` */
    method SetSolved(u: U64, taskKey: string)
      requires Valid()
      modifies this
      ensures Valid()
      ensures store == WithSolved(old(store), u, taskKey)
      ensures outbox == old(outbox)
    {
      var key := SolveKey(u);
      var ledger := store.ReadSolve(key);
      var solves := if ledger.Some? then ledger.value + [taskKey] else [taskKey];
      assert solves == Ledger(store, u) + [taskKey];
      store := store.Put(key, SolveValue(solves));
    }

    /** `try_submit_flag` */
    method TrySubmitFlag(u: U64, text: string) returns (r: SubmissionResult)
      requires Valid()
      modifies this
      ensures Valid()
      ensures (r, store) == Submit(old(store), u, text)
      ensures outbox == old(outbox)
    {
      var attempt := Normalize(text);
      var keys := store.Keys("task:");
      var i := FindTask(keys, attempt);
      if i == |keys| {
        r := NotAFlag;
      } else {
        var solved := IsSolved(u, keys[i]);
        if solved {
          r := AlreadySolved;
        } else {
          var name := store.ReadTask(keys[i]).value.name;
          SetSolved(u, keys[i]);
          r := Solved(name);
        }
      }
    }

    /** The scan over the task keys in `try_submit_flag`: the first task whose flag accepts `attempt`. */
    method FindTask(keys: seq<string>, attempt: string) returns (i: nat)
      ensures i == FirstMatch(store, keys, attempt)
    {
      i := 0;
      while i < |keys| && !Matches(store, keys[i], attempt)
        invariant i <= |keys|
        invariant forall j :: 0 <= j < i ==> !Matches(store, keys[j], attempt)
      {
        i := i + 1;
      }
      FirstMatchUnique(store, keys, attempt, i);
    }

    /** The first token whose task key is free; the loop at the head of `create_task`. */
    method FreeToken(tokens: seq<string>) returns (i: nat)
      requires exists i :: 0 <= i < |tokens| && store.ReadTask(TaskKey(tokens[i])).None?
      ensures i == FirstFree(store, tokens)
      ensures i < |tokens| && store.ReadTask(TaskKey(tokens[i])).None?
    {
      ghost var w :| 0 <= w < |tokens| && store.ReadTask(TaskKey(tokens[w])).None?;
      i := 0;
      while store.ReadTask(TaskKey(tokens[i])).Some?
        invariant 0 <= i <= w
        invariant forall j :: 0 <= j < i ==> store.ReadTask(TaskKey(tokens[j])).Some?
        decreases w - i
      {
        i := i + 1;
      }
      FirstFreeUnique(store, tokens, i);
    }

    /**
     * `create_task`: parses the text, then draws tokens until `task:<token>` holds no task and
     * writes the task there. `tokens` is the UUID supply; some token in it must be free.
     */
    method CreateTask(text: string, tokens: seq<string>) returns (r: Result<string, string>)
      requires Valid()
      requires StringToTask(text).Success? ==>
        exists i :: 0 <= i < |tokens| && store.ReadTask(TaskKey(tokens[i])).None?
      modifies this
      ensures Valid()
      ensures outbox == old(outbox)
      ensures StringToTask(text).Failure? ==> r == Failure(StringToTask(text).error) && store == old(store)
      ensures StringToTask(text).Success? ==> (
        && FirstFree(old(store), tokens) < |tokens|
        && r == Success(TaskKey(tokens[FirstFree(old(store), tokens)]))
        && old(store).ReadTask(r.value).None?
        && store == old(store).PutTask(r.value, StringToTask(text).value)
        && store.ReadTask(r.value) == Some(StringToTask(text).value.(id := LastSegment(r.value, ':'))))
    {
      match StringToTask(text)
      case Failure(e) =>
        r := Failure(e);
      case Success(t) =>
        var i := FreeToken(tokens);
        var key := TaskKey(tokens[i]);
        store := store.PutTask(key, t);
        r := Success(key);
    }

    /** `edit_task`: parses the text and writes it under `task:<id>`, whether or not a task was there. */
    method EditTask(id: string, text: string) returns (r: Result<(), string>)
      requires Valid()
      modifies this
      ensures Valid()
      ensures outbox == old(outbox)
      ensures StringToTask(text).Failure? ==> r == Failure(StringToTask(text).error) && store == old(store)
      ensures StringToTask(text).Success? ==> r == Success(()) && store == old(store).PutTask(TaskKey(id), StringToTask(text).value)
    {
      match StringToTask(text)
      case Failure(e) =>
        r := Failure(e);
      case Success(t) =>
        store := store.PutTask(TaskKey(id), t);
        r := Success(());
    }

    /** `delete_task` */
    method DeleteTask(id: string)
      requires Valid()
      modifies this
      ensures Valid()
      ensures outbox == old(outbox)
      ensures store == old(store).Delete(TaskKey(id))
    {
      store := store.Delete(TaskKey(id));
    }

    /** `get_task` */
    function GetTask(id: string): (t: Option<Task>)
      reads this
      ensures t.Some? && ':' !in id ==> t.value.id == id
    {
      assert ':' !in id ==> store.ReadTask(TaskKey(id)).Some? ==> store.ReadTask(TaskKey(id)).value.id == id by {
        if ':' !in id {
          TaskIdIsToken(store, id);
        }
      }
      store.ReadTask(TaskKey(id))
    }

    /** `set_user_state` */
    method SetUserState(u: U64, s: string)
      requires Valid()
      modifies this
      ensures Valid()
      ensures outbox == old(outbox)
      ensures store == old(store).Put(StateKey(u), TextValue(s))
    {
      store := store.Put(StateKey(u), TextValue(s));
    }

    /** `append_to_contact` */
    method AppendToContact(u: U64, text: string)
      requires Valid()
      modifies this
      ensures Valid()
      ensures outbox == old(outbox)
      ensures store == old(store).Put(ContactKey(u), TextValue(Appended(old(store).ReadText(ContactKey(u)), text)))
    {
      var key := ContactKey(u);
      var message;
      match store.ReadText(key) {
        case Some(prev) =>
          message := prev + "\n";
          message := message + text;
        case None =>
          message := text;
      }
      store := store.Put(key, TextValue(message));
    }

    /** `retrieve_and_erase_contact`: the buffer (or "") is returned and "" is left behind. */
    method RetrieveAndEraseContact(u: U64) returns (message: string)
      requires Valid()
      modifies this
      ensures Valid()
      ensures outbox == old(outbox)
      ensures message == old(store).ReadText(ContactKey(u)).GetOr("")
      ensures store == old(store).Put(ContactKey(u), TextValue(""))
    {
      message := store.ReadText(ContactKey(u)).GetOr("");
      store := store.Put(ContactKey(u), TextValue(""));
    }

    /** `get_score`: reads every ledger, sorts by descending score, finds the user's place. */
    method GetScore(u: U64) returns (place: nat, score: nat)
      requires Valid()
      ensures (place, score) == ScoreOf(store, config, u)
    {
      var userKey := SolveKey(u);
      var hidden := IsTestUser(config, u) || IsAdmin(config, u);
      var keys := store.Keys("solve:");
      var data: seq<(string, nat)> := [];
      for i := 0 to |keys|
        invariant |data| == i
        invariant forall j :: 0 <= j < i ==> data[j] == (keys[j], LedgerScore(store, keys[j]))
      {
        var ledger := store.ReadSolve(keys[i]);
        var s := if ledger.Some? then |ledger.value| else 0;
        data := data + [(keys[i], s)];
      }
      assert data == ScoreEntries(store, keys);
      var size := |data|;
      data := SortBy(data, ScoreAtLeast);
      var j := 0;
      while j < |data| && data[j].0 != userKey
        invariant 0 <= j <= |data|
        invariant forall k :: 0 <= k < j ==> data[k].0 != userKey
      {
        j := j + 1;
      }
      IndexOfKeyUnique(data, userKey, j);
      if j < |data| {
        place, score := j + 1, data[j].1;
      } else {
        place, score := size + 1, 0;
      }
      if hidden {
        place := U64_MAX;
      }
    }

    /** `list_tasks` */
    method ListTasks(u: U64) returns (tasks: seq<Task>)
      ensures tasks == TaskList(store, u)
    {
      var keys := store.Keys("task:");
      tasks := [];
      for i := 0 to |keys|
        invariant tasks == OpenTasks(store, u, keys[..i])
      {
        OpenTasksStep(store, u, keys, i);
        var solved := IsSolved(u, keys[i]);
        if u == 0 || !solved {
          var task := store.ReadTask(keys[i]);
          if task.Some? && !task.value.hidden {
            tasks := tasks + [task.value];
          }
        }
      }
      assert keys[..|keys|] == keys;
      tasks := SortBy(tasks, NameLe);
    }

    /** `get_scoreboard` */
    method GetScoreboard() returns (board: seq<(Profile, nat)>)
      ensures board == Scoreboard(store, config)
    {
      var keys := store.Keys("user:");
      board := [];
      for i := 0 to |keys|
        invariant board == BoardEntries(store, config, keys[..i])
      {
        assert keys[..i + 1][..i] == keys[..i];
        var key := keys[i];
        assert key in keys;
        var user := store.ReadProfile(key);
        if user.None? {
          continue;
        }
        var ledger := store.ReadSolve("solve:" + key[5..]);
        var score := if ledger.Some? then |ledger.value| else 0;
        if IsTestUser(config, AsU64(user.value.telegramId)) {
          board := board + [(user.value, 0)];
        } else {
          board := board + [(user.value, score)];
        }
      }
      assert keys[..|keys|] == keys;
      board := SortBy(board, ScoreAtLeast);
    }
  }
}
