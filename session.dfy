/**
 * The form's session state (st.session_state in app.py): a dictionary from
 * widget keys to values that survives reruns. init_session_state fills in the
 * defaults that are missing, clear_form resets the form's keys, and the compute
 * button stores a calculation result. A session with result None is idle; one
 * holding a result is showing it.
 */
module Session {
  import opened Calculator

  /** The values the form keeps under its keys. */
  datatype Value =
    | Text(text: string)
    | Number(number: int)
    | Labels(labels: seq<string>)
    | NoResult
    | Stored(result: CalcResult)

  /**
   * The keys of the session dictionary: one constructor per key the form
   * names ('username', 'oc_name', 'ethnicity', 'height', 'weight',
   * 'hormone_development', 'drug_types', 'result'), and Other for any further
   * key the page framework may keep there.
   */
  datatype Key =
    | UserName | OcName | EthnicityKey | HeightKey | WeightKey | HormoneKey | DrugsKey | ResultKey
    | Other(name: string)

  /** The defaults of init_session_state, in insertion order. */
  const Defaults: seq<(Key, Value)> := [
    (UserName, Text("")), (OcName, Text("")), (EthnicityKey, Text(GlobalAverage)),
    (HeightKey, Number(175)), (WeightKey, Number(70)), (HormoneKey, Text(DevRandom)),
    (DrugsKey, Labels([])), (ResultKey, NoResult)
  ]

  /** The keys clear_form walks over, in its order. */
  const FormKeys: seq<Key> := [UserName, OcName, EthnicityKey, HeightKey, WeightKey, HormoneKey, DrugsKey, ResultKey]

  const DefaultKeys: set<Key> := set i | 0 <= i < |Defaults| :: Defaults[i].0

  /** No key appears twice in the defaults. */
  lemma DefaultKeysDistinct()
    ensures forall i, j | 0 <= i < j < |Defaults| :: Defaults[i].0 != Defaults[j].0
  {
  }

  /** The default init_session_state stores under a key. */
  function DefaultValue(key: Key): (v: Value)
    requires key in DefaultKeys
    ensures forall i | 0 <= i < |Defaults| && Defaults[i].0 == key :: v == Defaults[i].1
  {
    DefaultKeysDistinct();
    Lookup(Defaults, key, NoResult)
  }

  /** The value clear_form writes back under a key: its chain of comparisons on the key, with "" for any other key. */
  function ClearValue(key: Key): (v: Value)
    ensures v == NoResult <==> key == ResultKey
    ensures v.Number? <==> key == HeightKey || key == WeightKey
    ensures v.Number? ==> v.number > 0
    ensures v.Labels? <==> key == DrugsKey
    ensures v.Text? <==> !(key == ResultKey || key == HeightKey || key == WeightKey || key == DrugsKey)
  {
    match key
    case EthnicityKey => Text(GlobalAverage)
    case HeightKey => Number(175)
    case WeightKey => Number(70)
    case HormoneKey => Text(DevRandom)
    case DrugsKey => Labels([])
    case ResultKey => NoResult
    case _ => Text("")
  }

  /** clear_form and init_session_state agree: every key is reset to exactly its default. */
  lemma ClearValueIsDefault(key: Key)
    requires key in FormKeys
    ensures key in DefaultKeys && ClearValue(key) == DefaultValue(key)
  {
    var i := match key
      case UserName => 0 case OcName => 1 case EthnicityKey => 2 case HeightKey => 3
      case WeightKey => 4 case HormoneKey => 5 case DrugsKey => 6 case ResultKey => 7
      case Other(_) => assert false; 0;
    assert Defaults[i] == (key, ClearValue(key));
  }

  /**
   * init_session_state's loop from some pair on: each pair stores its value
   * when its key is still missing, so the first pair naming a key wins.
   */
  function FillMissing(m: map<Key, Value>, table: seq<(Key, Value)>): (r: map<Key, Value>)
    ensures r.Keys == m.Keys + (set i | 0 <= i < |table| :: table[i].0)
    ensures forall k | k in m :: r[k] == m[k]
    ensures forall k | k in r && k !in m :: r[k] == Lookup(table, k, NoResult)
    decreases |table|
  {
    if |table| == 0 then m
    else
      var (key, value) := table[0];
      var r := FillMissing(if key in m then m else m[key := value], table[1..]);
      assert (set i | 0 <= i < |table| :: table[i].0) == {key} + (set i | 0 <= i < |table[1..]| :: table[1..][i].0) by {
        forall i | 0 < i < |table| ensures table[i].0 == table[1..][i - 1].0 { }
      }
      r
  }

  /** clear_form walks over exactly the keys init_session_state provides. */
  lemma FormKeysAreDefaultKeys()
    ensures forall k | k in FormKeys :: k in DefaultKeys
  {
    assert forall i | 0 <= i < |FormKeys| :: FormKeys[i] == Defaults[i].0;
  }

  /** The session after init_session_state: the defaults under the keys that were missing. */
  function WithDefaults(m: map<Key, Value>): (r: map<Key, Value>)
    ensures r.Keys == m.Keys + DefaultKeys
    ensures forall k | k in m :: r[k] == m[k]
    ensures forall k | k in DefaultKeys && k !in m :: r[k] == DefaultValue(k)
  {
    FillMissing(m, Defaults)
  }

  /** The session after clear_form: the form's keys that are present hold their reset values. */
  function Cleared(m: map<Key, Value>): (r: map<Key, Value>)
    ensures r.Keys == m.Keys
    ensures forall k | k in m && k in FormKeys :: r[k] == ClearValue(k)
    ensures forall k | k in m && k !in FormKeys :: r[k] == m[k]
  {
    map k | k in m :: if k in FormKeys then ClearValue(k) else m[k]
  }

  predicate IsIdle(m: map<Key, Value>) {
    ResultKey in m && m[ResultKey] == NoResult
  }

  predicate HasResult(m: map<Key, Value>) {
    ResultKey in m && m[ResultKey].Stored?
  }

  /** The form's inputs are present and of the kinds its widgets produce. */
  predicate FormReady(m: map<Key, Value>) {
    && EthnicityKey in m && m[EthnicityKey].Text?
    && HeightKey in m && m[HeightKey].Number? && m[HeightKey].number > 0
    && WeightKey in m && m[WeightKey].Number?
    && HormoneKey in m && m[HormoneKey].Text?
    && DrugsKey in m && m[DrugsKey].Labels?
  }

  /** The inputs calculate receives from the form, with the height and weight as the sliders give them. */
  function CalculateFromForm(m: map<Key, Value>, d: Draws): CalcResult
    requires FormReady(m) && ValidDraws(d)
  {
    Calculate(m[EthnicityKey].text, m[HeightKey].number as real, m[WeightKey].number as real,
              m[HormoneKey].text, m[DrugsKey].labels, d)
  }

  /** The session after the compute button: the new result overwrites the old one, nothing else changes. */
  function Computed(m: map<Key, Value>, result: CalcResult): (r: map<Key, Value>)
    ensures r.Keys == m.Keys + {ResultKey}
    ensures HasResult(r) && r[ResultKey].result == result
    ensures FormReady(m) ==> FormReady(r)
    ensures forall k | k in m && k != ResultKey :: r[k] == m[k]
  {
    m[ResultKey := Stored(result)]
  }

  /** Running init_session_state again, as every rerun of the page does, changes nothing. */
  lemma WithDefaultsIdempotent(m: map<Key, Value>)
    ensures WithDefaults(WithDefaults(m)) == WithDefaults(m)
  {
  }

  /** A new session after init_session_state is idle, with its inputs ready. */
  lemma FreshSessionIdle()
    ensures IsIdle(WithDefaults(map[])) && FormReady(WithDefaults(map[]))
  {
    DefaultsMakeIdle(WithDefaults(map[]));
  }

  /** After clear_form every key of an initialised session holds its default, and the session is idle. */
  lemma ClearRestoresDefaults(m: map<Key, Value>)
    ensures var c := Cleared(WithDefaults(m));
      && (forall k | k in DefaultKeys :: k in c && c[k] == DefaultValue(k))
      && IsIdle(c)
      && FormReady(c)
  {
    var c := Cleared(WithDefaults(m));
    forall k | k in DefaultKeys
      ensures k in c && c[k] == DefaultValue(k)
    {
      ClearedKeyIsDefault(m, k);
    }
    DefaultsMakeIdle(c);
  }

  /** One key of an initialised session after clear_form. */
  lemma ClearedKeyIsDefault(m: map<Key, Value>, k: Key)
    requires k in DefaultKeys
    ensures k in Cleared(WithDefaults(m)) && Cleared(WithDefaults(m))[k] == DefaultValue(k)
  {
    var i :| 0 <= i < |Defaults| && Defaults[i].0 == k;
    assert FormKeys[i] == k;
    ClearValueIsDefault(k);
  }

  /** A session holding every default is idle, with its inputs ready. */
  lemma DefaultsMakeIdle(m: map<Key, Value>)
    requires forall k | k in DefaultKeys :: k in m && m[k] == DefaultValue(k)
    ensures IsIdle(m) && FormReady(m)
  {
    assert Defaults[7].0 == ResultKey;
    assert Defaults[2].0 == EthnicityKey && Defaults[3].0 == HeightKey && Defaults[4].0 == WeightKey;
    assert Defaults[5].0 == HormoneKey && Defaults[6].0 == DrugsKey;
  }

  /** Clearing a session that holds every key of the form leaves it idle, with its inputs ready. */
  lemma ClearedInitialisedIsIdle(m: map<Key, Value>)
    requires DefaultKeys <= m.Keys
    ensures IsIdle(Cleared(m)) && FormReady(Cleared(m))
  {
    FormKeysAreDefaultKeys();
    var c := Cleared(m);
    assert c[ResultKey] == NoResult && c[EthnicityKey] == Text(GlobalAverage);
    assert c[HeightKey] == Number(175) && c[WeightKey] == Number(70);
    assert c[HormoneKey] == Text(DevRandom) && c[DrugsKey] == Labels([]);
  }

  /** init_session_state changes nothing in a session that already holds every default key. */
  lemma InitialisedUnchanged(m: map<Key, Value>)
    requires DefaultKeys <= m.Keys
    ensures WithDefaults(m) == m
  {
  }

  /** The rerun that follows the clear button runs init_session_state again, which changes nothing. */
  lemma InitAfterClear(m: map<Key, Value>)
    ensures WithDefaults(Cleared(WithDefaults(m))) == Cleared(WithDefaults(m))
  {
    InitialisedUnchanged(Cleared(WithDefaults(m)));
  }

  /** Clearing twice is the same as clearing once. */
  lemma ClearedIdempotent(m: map<Key, Value>)
    ensures Cleared(Cleared(m)) == Cleared(m)
  {
  }

  /** The two transitions of the form: compute leads to has-result, clear leads back to idle. */
  lemma ComputeThenClear(m: map<Key, Value>, result: CalcResult)
    ensures HasResult(Computed(m, result))
    ensures IsIdle(Cleared(Computed(m, result)))
  {
    assert ResultKey == FormKeys[7];
  }

  /** st.session_state: a dictionary the page's actions update in place. */
  class SessionState {
    var entries: map<Key, Value>

    /** A session starts empty. */
    constructor ()
      ensures entries == map[]
    {
      entries := map[];
    }

    /** init_session_state: store each default whose key is missing, keep every other value. */
    method InitSessionState()
      modifies this
      ensures entries == WithDefaults(old(entries))
    {
      assert Defaults[0..] == Defaults;
      for i := 0 to |Defaults|
        invariant FillMissing(entries, Defaults[i..]) == FillMissing(old(entries), Defaults)
      {
        var (key, value) := Defaults[i];
        assert Defaults[i..][1..] == Defaults[i + 1..];
        if key !in entries {
          entries := entries[key := value];
        }
      }
      assert Defaults[|Defaults|..] == [];
    }

    /** clear_form: every form key that is present gets its reset value; no key is added. */
    method ClearForm()
      modifies this
      ensures entries == Cleared(old(entries))
    {
      for i := 0 to |FormKeys|
        invariant entries.Keys == old(entries).Keys
        invariant forall k | k in entries ::
          entries[k] == if k in FormKeys[..i] then ClearValue(k) else old(entries)[k]
      {
        var key := FormKeys[i];
        if key in entries {
          entries := entries[key := ClearValue(key)];
        }
      }
      assert FormKeys[..|FormKeys|] == FormKeys;
    }

    /** The compute button: calculate on the current inputs and store the result, overwriting any earlier one. */
    method PressCompute(d: Draws)
      requires FormReady(entries) && ValidDraws(d)
      modifies this
      ensures entries == Computed(old(entries), CalculateFromForm(old(entries), d))
      ensures HasResult(entries) && FormReady(entries)
    {
      var result := CalculateFromForm(entries, d);
      entries := Computed(entries, result);
    }

    /** The clear button: clear_form, which leaves an initialised session idle. */
    method PressClear()
      requires DefaultKeys <= entries.Keys
      modifies this
      ensures entries == Cleared(old(entries))
      ensures IsIdle(entries) && FormReady(entries)
    {
      ClearForm();
      ClearedInitialisedIsIdle(old(entries));
    }
  }
}
