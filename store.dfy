/**
 * The Redis database as the bot uses it: string keys, each holding one JSON-encoded record,
 * and a `KEYS pattern` enumeration. Values are kept decoded; a key whose value does not decode
 * as the record type asked for reads as absent, as `collect_from_cache` does.
 */
module KeyValue {
  import opened Wrappers
  import opened Strings

  datatype FlagType = Single(answer: string) | Multi(answers: seq<string>)

  /** `id` is not serialised: it is filled from the key on every read. */
  datatype Task = Task(name: string, flag: FlagType, hint: string, id: string, hidden: bool)

  /** The cached club profile (`Vas3kUser`), reduced to the fields the core reads; `telegramId` is filled from the key. */
  datatype Profile = Profile(telegramId: int, fullName: string, slug: string, isActiveMember: bool)

  /** A stored value in decoded form; `Unparsable` stands for bytes that no record type accepts. */
  datatype Value =
    | TaskValue(task: Task)
    | SolveValue(solves: seq<string>)
    | TextValue(text: string)
    | ProfileValue(profile: Profile)
    | Unparsable

  predicate Distinct(s: seq<string>) {
    forall i, j :: 0 <= i < j < |s| ==> s[i] != s[j]
  }

  lemma DistinctAppend(s: seq<string>, x: string)
    requires Distinct(s) && x !in s
    ensures Distinct(s + [x])
  {
    var t := s + [x];
    forall i, j | 0 <= i < j < |t| ensures t[i] != t[j] {
      if j == |s| {
        assert t[i] == s[i];
      } else {
        assert t[i] == s[i] && t[j] == s[j];
      }
    }
  }

  /** The keys of `keys`, in order, that match the glob `prefix*`. */
  function Filter(keys: seq<string>, prefix: string): (r: seq<string>)
    ensures forall k :: k in r <==> k in keys && StartsWith(k, prefix)
    ensures Distinct(keys) ==> Distinct(r)
  {
    if keys == [] then []
    else
      var last := keys[|keys| - 1];
      Filter(keys[..|keys| - 1], prefix) + (if StartsWith(last, prefix) then [last] else [])
  }

  /** `keys` with `key` taken out. */
  function Without(keys: seq<string>, key: string): (r: seq<string>)
    ensures forall k :: k in r <==> k in keys && k != key
    ensures Distinct(keys) ==> Distinct(r)
  {
    if keys == [] then []
    else
      var init := keys[..|keys| - 1];
      var last := keys[|keys| - 1];
      assert Distinct(keys) ==> Distinct(init) && last !in init;
      Without(init, key) + (if last == key then [] else [last])
  }

  lemma FilterAppend(keys: seq<string>, key: string, prefix: string)
    ensures Filter(keys + [key], prefix) == Filter(keys, prefix) + (if StartsWith(key, prefix) then [key] else [])
  {
    assert (keys + [key])[..|keys|] == keys;
  }

  /**
   * `data` is what the keys hold; `order` is the order `KEYS` lists them in: every key exactly
   * once. The order is the store's own business; this model lists a new key last.
   */
  datatype Store = Store(data: map<string, Value>, order: seq<string>) {

    ghost predicate Valid() {
      Distinct(order) && forall k :: k in data <==> k in order
    }

    /** `SET key value` */
    function Put(key: string, v: Value): (st: Store)
      ensures st.data == data[key := v]
      ensures st.order == if key in order then order else order + [key]
      ensures Valid() ==> st.Valid()
    {
      Store(data[key := v], if key in order then order else order + [key])
    }

    /** `DEL key` */
    function Delete(key: string): (st: Store)
      ensures st.data == data - {key}
      ensures forall k :: k in st.order <==> k in order && k != key
      ensures Valid() ==> st.Valid()
    {
      Store(data - {key}, Without(order, key))
    }

    /** `KEYS prefix*` */
    function Keys(prefix: string): (ks: seq<string>)
      ensures forall k :: k in ks <==> k in order && StartsWith(k, prefix)
      ensures Valid() ==> Distinct(ks)
    {
      Filter(order, prefix)
    }

    /** `collect_from_cache::<Task>`: decodes a task and fills its id with the key's last ':'-segment. */
    function ReadTask(key: string): Option<Task> {
      if key in data && data[key].TaskValue? then Some(data[key].task.(id := LastSegment(key, ':'))) else None
    }

    /** `collect_from_cache::<Solve>`: the ledger's list of task keys; anything else reads as absent. */
    function ReadSolve(key: string): (r: Option<seq<string>>)
      ensures r.Some? ==> key in data && data[key] == SolveValue(r.value)
      ensures key !in data || !data[key].SolveValue? ==> r.None?
    {
      if key in data && data[key].SolveValue? then Some(data[key].solves) else None
    }

    /** `collect_from_cache::<String>`: a stored text; anything else reads as absent. */
    function ReadText(key: string): (r: Option<string>)
      ensures r.Some? ==> key in data && data[key] == TextValue(r.value)
      ensures key !in data || !data[key].TextValue? ==> r.None?
    {
      if key in data && data[key].TextValue? then Some(data[key].text) else None
    }

    /**
     * `collect_from_cache::<Vas3kUser>`: the telegram id starts at its default 0 and is replaced
     * by the key's last ':'-segment when that parses as an i64.
     */
    function ReadProfile(key: string): Option<Profile> {
      if key in data && data[key].ProfileValue? then
        Some(data[key].profile.(telegramId := ParseI64(LastSegment(key, ':')).GetOr(0)))
      else None
    }

    /**
     * `put_into_cache(key, &task)`: the id is not serialised, so the task reads back with the
     * id filled from the key; every other key reads as before.
     */
    function PutTask(key: string, t: Task): (st: Store)
      ensures st.ReadTask(key) == Some(t.(id := LastSegment(key, ':')))
      ensures forall k :: k != key ==> st.ReadTask(k) == ReadTask(k)
      ensures Valid() ==> st.Valid()
    {
      Put(key, TaskValue(t.(id := "")))
    }
  }

  /** A text or a ledger written under a key reads back; every other key reads as before. */
  lemma ReadAfterPut(st: Store, key: string, v: Value, k: string)
    ensures v.TextValue? ==> st.Put(key, v).ReadText(key) == Some(v.text)
    ensures v.SolveValue? ==> st.Put(key, v).ReadSolve(key) == Some(v.solves)
    ensures k != key ==> st.Put(key, v).ReadText(k) == st.ReadText(k) && st.Put(key, v).ReadSolve(k) == st.ReadSolve(k)
  {
  }

  /** A write to one key leaves what every other key reads as a task or a profile. */
  lemma RecordsAfterPut(st: Store, key: string, v: Value, k: string)
    requires k != key
    ensures st.Put(key, v).ReadTask(k) == st.ReadTask(k)
    ensures st.Put(key, v).ReadProfile(k) == st.ReadProfile(k)
  {
  }

  /** A deleted key reads as no task; every other key reads as before. */
  lemma TasksAfterDelete(st: Store, key: string, k: string)
    ensures st.Delete(key).ReadTask(key).None?
    ensures k != key ==> st.Delete(key).ReadTask(k) == st.ReadTask(k)
  {
  }

  /** Writing a key outside a namespace leaves that namespace's enumeration as it was. */
  lemma KeysAfterPut(st: Store, key: string, v: Value, prefix: string)
    requires !StartsWith(key, prefix)
    ensures st.Put(key, v).Keys(prefix) == st.Keys(prefix)
  {
    if key !in st.order {
      FilterAppend(st.order, key, prefix);
    }
  }

  /** The id filled into a task read from `task:<token>` is the token itself. */
  lemma TaskIdIsToken(st: Store, token: string)
    requires ':' !in token
    ensures st.ReadTask("task:" + token).Some? ==> st.ReadTask("task:" + token).value.id == token
  {
    assert "task:" + token == "task" + [':'] + token;
    LastSegmentAfterSeparator("task", ':', token);
  }

  /** A profile read from `user:<n>` carries telegram id `n` (`FillId for Vas3kUser`). */
  lemma ProfileIdFromKey(st: Store, n: nat)
    requires n <= I64_MAX
    ensures st.ReadProfile("user:" + NatToString(n)).Some? ==>
      st.ReadProfile("user:" + NatToString(n)).value.telegramId == n
  {
    var digits := NatToString(n);
    assert "user:" + digits == "user" + [':'] + digits;
    LastSegmentAfterSeparator("user", ':', digits);
    ParseNatToString(n);
  }
}
