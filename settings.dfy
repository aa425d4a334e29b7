/** The settings page (locust-dashboard/src/pages/Settings.js): a record of
    four categories of settings, each a record of named values, with a
    `saved` flag that a save raises for three seconds. The three-second
    timeout is an explicit step. */
module Settings {
  import opened JsValues
  import opened Optional

  type Record = map<string, JsValue>
  type SettingsRecord = map<string, Record>

  /** The settings the page starts with and a reset restores. */
  function Defaults(): SettingsRecord {
    map[
      "notifications" := map["email" := Bool(true), "browser" := Bool(true),
                             "testComplete" := Bool(true), "errorAlert" := Bool(true)],
      "performance" := map["refreshInterval" := Num(5), "maxDataPoints" := Num(1000),
                           "autoScroll" := Bool(true)],
      "appearance" := map["theme" := Str("light"), "language" := Str("en"), "timezone" := Str("UTC")],
      "security" := map["sessionTimeout" := Num(30), "requireMFA" := Bool(false),
                        "passwordExpiry" := Num(90)]
    ]
  }

  /** `settings[category]?.[key]`, with None for a missing entry. */
  function Lookup(s: SettingsRecord, category: string, key: string): Option<JsValue> {
    if category in s && key in s[category] then Some(s[category][key]) else None
  }

  /** The record `handleSettingChange` builds: `category` is copied with
      `key` set to `value` (an unknown category starts from `{}`, as
      spreading `undefined` does), and everything else is kept. */
  function UpdateSetting(s: SettingsRecord, category: string, key: string, value: JsValue)
    : (r: SettingsRecord)
    ensures Lookup(r, category, key) == Some(value)
    ensures forall c, k :: (c != category || k != key) ==> Lookup(r, c, k) == Lookup(s, c, k)
    ensures r.Keys == s.Keys + {category}
  {
    var current := if category in s then s[category] else map[];
    s[category := current[key := value]]
  }

  /** Setting a value to what it already is gives back the same record. */
  lemma UpdateWithCurrent(s: SettingsRecord, category: string, key: string)
    requires Lookup(s, category, key).Some?
    ensures UpdateSetting(s, category, key, Lookup(s, category, key).value) == s
  {
    var r := UpdateSetting(s, category, key, Lookup(s, category, key).value);
    assert r[category] == s[category];
  }

  /** Two changes to different settings can be made in either order. */
  lemma UpdatesCommute(s: SettingsRecord, c1: string, k1: string, v1: JsValue,
                       c2: string, k2: string, v2: JsValue)
    requires c1 != c2 || k1 != k2
    ensures UpdateSetting(UpdateSetting(s, c1, k1, v1), c2, k2, v2)
         == UpdateSetting(UpdateSetting(s, c2, k2, v2), c1, k1, v1)
  {
    var r1 := if c1 in s then s[c1] else map[];
    var r2 := if c2 in s then s[c2] else map[];
    if c1 == c2 {
      assert r1[k1 := v1][k2 := v2] == r1[k2 := v2][k1 := v1];
    } else {
      assert s[c1 := r1[k1 := v1]][c2 := r2[k2 := v2]] == s[c2 := r2[k2 := v2]][c1 := r1[k1 := v1]];
    }
  }

  /** Whether a divider follows the API key at `index` of `count`. */
  predicate DividerAfter(index: nat, count: nat) {
    index < count - 1
  }

  /** One entry of the API key list: a key's row, or a divider. */
  datatype ListEntry<K> = KeyRow(key: K) | Divider

  /** What `apiKeys.map` renders for the key at `index`: its row, then a
      divider when `DividerAfter` holds. */
  function Fragment<K>(keys: seq<K>, index: nat): seq<ListEntry<K>>
    requires index < |keys|
  {
    [KeyRow(keys[index])] + (if DividerAfter(index, |keys|) then [Divider] else [])
  }

  /** The fragments for the keys from `from` on, in order. */
  function RenderedFrom<K>(keys: seq<K>, from: nat): seq<ListEntry<K>>
    requires from <= |keys|
    decreases |keys| - from
  {
    if from == |keys| then [] else Fragment(keys, from) + RenderedFrom(keys, from + 1)
  }

  /** The rendered list alternates key rows and dividers: key `from + j`
      sits at position `2 * j`, a divider at every odd position, and the
      list starts and ends with a key row. */
  lemma {:induction false} RenderedShape<K>(keys: seq<K>, from: nat)
    requires from < |keys|
    ensures |RenderedFrom(keys, from)| == 2 * (|keys| - from) - 1
    ensures forall j :: 0 <= j < |keys| - from ==> RenderedFrom(keys, from)[2 * j] == KeyRow(keys[from + j])
    ensures forall j :: 0 <= j < |keys| - from - 1 ==> RenderedFrom(keys, from)[2 * j + 1] == Divider
    decreases |keys| - from
  {
    var r := RenderedFrom(keys, from);
    if from + 1 < |keys| {
      RenderedShape(keys, from + 1);
      var rest := RenderedFrom(keys, from + 1);
      assert r == [KeyRow(keys[from]), Divider] + rest;
      forall j | 1 <= j < |keys| - from
        ensures r[2 * j] == KeyRow(keys[from + j])
      {
        assert r[2 * j] == rest[2 * (j - 1)];
      }
      forall j | 1 <= j < |keys| - from - 1
        ensures r[2 * j + 1] == Divider
      {
        assert r[2 * j + 1] == rest[2 * (j - 1) + 1];
      }
    } else {
      assert r == [KeyRow(keys[from])];
    }
  }

  /** In a list of 2n-1 entries with key `i` at `2 * i`, a divider can only
      be at an odd position. */
  lemma DividerParity<K>(r: seq<ListEntry<K>>, keys: seq<K>, j: int)
    requires |r| == 2 * |keys| - 1 && 0 <= j < |r| && r[j] == Divider
    requires forall i :: 0 <= i < |keys| ==> r[2 * i] == KeyRow(keys[i])
    ensures j % 2 == 1
  {
    var m := j / 2;
    assert r[2 * m] == KeyRow(keys[m]);
  }

  /** The whole list: dividers sit only at odd positions, strictly inside
      the list, and the divider at `2 * i + 1` separates key `i` from key
      `i + 1`. */
  lemma DividersBetweenKeys<K>(keys: seq<K>)
    requires keys != []
    ensures |RenderedFrom(keys, 0)| == 2 * |keys| - 1
    ensures forall j :: 0 <= j < |RenderedFrom(keys, 0)| && RenderedFrom(keys, 0)[j] == Divider ==>
      j % 2 == 1 && 0 < j < |RenderedFrom(keys, 0)| - 1
    ensures forall i :: 0 <= i < |keys| - 1 ==>
      && RenderedFrom(keys, 0)[2 * i] == KeyRow(keys[i])
      && RenderedFrom(keys, 0)[2 * i + 1] == Divider
      && RenderedFrom(keys, 0)[2 * i + 2] == KeyRow(keys[i + 1])
  {
    RenderedShape(keys, 0);
    var r := RenderedFrom(keys, 0);
    forall j | 0 <= j < |r| && r[j] == Divider
      ensures j % 2 == 1
    {
      DividerParity(r, keys, j);
    }
    forall i | 0 <= i < |keys| - 1
      ensures r[2 * i + 2] == KeyRow(keys[i + 1])
    {
      assert r[2 * (i + 1)] == KeyRow(keys[i + 1]);
    }
  }

  class Page {
    var settings: SettingsRecord
    var saved: bool
    /** Save timeouts set and not yet fired. */
    var pendingTimeouts: nat

    constructor ()
      ensures settings == Defaults() && !saved && pendingTimeouts == 0
    {
      settings := Defaults();
      saved := false;
      pendingTimeouts := 0;
    }

    /** `handleSettingChange`: exactly one setting changes and the page
        becomes unsaved. */
    method HandleSettingChange(category: string, key: string, value: JsValue)
      modifies this
      ensures settings == UpdateSetting(old(settings), category, key, value)
      ensures !saved && pendingTimeouts == old(pendingTimeouts)
    {
      settings := UpdateSetting(settings, category, key, value);
      saved := false;
    }

    /** `handleSave`: the page is marked saved and a timeout set to clear
        the mark; the settings are unchanged. */
    method HandleSave()
      modifies this
      ensures saved && settings == old(settings)
      ensures pendingTimeouts == old(pendingTimeouts) + 1
    {
      saved := true;
      pendingTimeouts := pendingTimeouts + 1;
    }

    /** A save timeout fires. */
    method SaveTimeout()
      requires pendingTimeouts > 0
      modifies this
      ensures !saved && settings == old(settings)
      ensures pendingTimeouts == old(pendingTimeouts) - 1
    {
      saved := false;
      pendingTimeouts := pendingTimeouts - 1;
    }

    /** `handleResetDefaults`: the initial record comes back and the page
        is unsaved, so a second reset changes nothing. */
    method HandleResetDefaults()
      modifies this
      ensures settings == Defaults() && !saved
      ensures pendingTimeouts == old(pendingTimeouts)
    {
      settings := Defaults();
      saved := false;
    }
  }
}
