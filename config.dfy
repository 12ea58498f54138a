/** The configuration core: event and policy records built from parsed JSON
    objects with their defaults filled in, the loader's keyed stores (filled
    in document order, a later duplicate key overwriting an earlier one), the
    lookups by key and the filter by level. */
module Config {
  import opened Basics
  import opened OrderedDict

  /** A parsed JSON value, as `json.load` hands it over. */
  datatype Json =
    | Null
    | Bool(b: bool)
    | Num(n: real)
    | Str(s: string)
    | Arr(items: seq<Json>)
    | Obj(fields: map<string, Json>)

  /** Lists and dictionaries cannot be dictionary keys. */
  predicate Hashable(j: Json)
  {
    !j.Arr? && !j.Obj?
  }

  /** The exceptions the loading code lets escape. */
  datatype LoadError =
    | NotADict           // a document or an entry is not a JSON object
    | NotIterable        // the entry list is a number, a boolean or null
    | MissingField(name: string)
    | UnhashableKey      // a `key` that is a list or an object

  datatype Result<T> = Success(value: T) | Failure(error: LoadError)

  /** `data.get(name, default)`. */
  function Lookup(data: map<string, Json>, name: string, default: Json): (r: Json)
    ensures name in data ==> r == data[name]
    ensures name !in data ==> r == default
  {
    if name in data then data[name] else default
  }

  /** The first of the required fields, in argument order, that `data` lacks:
      the one whose `KeyError` escapes. */
  function FirstMissing(data: map<string, Json>, required: seq<string>): (r: Option<string>)
    ensures r.None? <==> forall i :: 0 <= i < |required| ==> required[i] in data
    ensures r.Some? ==> exists i :: 0 <= i < |required| && required[i] == r.value && r.value !in data &&
                                  forall j :: 0 <= j < i ==> required[j] in data
  {
    if required == [] then None
    else if required[0] !in data then Some(required[0])
    else
      var rest := FirstMissing(data, required[1..]);
      assert forall i :: 1 <= i < |required| ==> required[i] == required[1..][i - 1];
      rest
  }

  /** `EventConfig`: every field holds whatever JSON value the document gave. */
  datatype EventConfig = EventConfig(
    key: Json,
    name: Json,
    description: Json,
    weight: Json,
    triggers: Json,
    effects: Json,
    consequences: Json)

  const EventRequired: seq<string> := ["key", "name", "description"]

  /** `EventConfig.from_dict`. */
  function EventFromDict(data: map<string, Json>): (r: Result<EventConfig>)
    ensures r.Success? <==> "key" in data && "name" in data && "description" in data
    ensures r.Failure? ==> r.error.MissingField? && r.error.name in EventRequired && r.error.name !in data
    ensures "key" !in data ==> r == Failure(MissingField("key"))
    ensures r.Success? ==> r.value.key == data["key"] && r.value.name == data["name"]
                           && r.value.description == data["description"]
    // each optional field is the given value when present and its default when absent
    ensures r.Success? ==> r.value.weight == if "weight" in data then data["weight"] else Num(1.0)
    ensures r.Success? ==> r.value.triggers == if "triggers" in data then data["triggers"] else Obj(map[])
    ensures r.Success? ==> r.value.effects == if "effects" in data then data["effects"] else Obj(map[])
    ensures r.Success? ==> r.value.consequences == if "consequences" in data then data["consequences"] else Arr([])
  {
    match FirstMissing(data, EventRequired)
    case Some(f) => Failure(MissingField(f))
    case None =>
      assert EventRequired[1] in data && EventRequired[2] in data;
      Success(EventConfig(
        key := data["key"],
        name := data["name"],
        description := data["description"],
        weight := Lookup(data, "weight", Num(1.0)),
        triggers := Lookup(data, "triggers", Obj(map[])),
        effects := Lookup(data, "effects", Obj(map[])),
        consequences := Lookup(data, "consequences", Arr([]))))
  }

  /** A record written out with all seven fields. */
  function EventToDict(c: EventConfig): map<string, Json>
  {
    map["key" := c.key, "name" := c.name, "description" := c.description, "weight" := c.weight,
        "triggers" := c.triggers, "effects" := c.effects, "consequences" := c.consequences]
  }

  /** Reading back a record written out in full gives the same record. */
  lemma EventRoundTrip(c: EventConfig)
    ensures EventFromDict(EventToDict(c)) == Success(c)
  {
    assert FirstMissing(EventToDict(c), EventRequired) == None;
  }

  /** With only the required fields given, the weight is 1.0, the triggers
      and effects are empty objects and the consequences an empty list. */
  lemma EventDefaults(key: Json, name: Json, description: Json)
    ensures EventFromDict(map["key" := key, "name" := name, "description" := description]) ==
            Success(EventConfig(key, name, description, Num(1.0), Obj(map[]), Obj(map[]), Arr([])))
  {
    assert FirstMissing(map["key" := key, "name" := name, "description" := description], EventRequired) == None;
  }

  /** Fields the record does not know are ignored. */
  lemma EventIgnoresUnknownFields(data: map<string, Json>, extra: string, v: Json)
    requires extra !in EventToDict(EventConfig(Null, Null, Null, Null, Null, Null, Null))
    ensures EventFromDict(data[extra := v]) == EventFromDict(data)
  {
    assert FirstMissing(data[extra := v], EventRequired) == FirstMissing(data, EventRequired);
  }

  /** `PolicyConfig`: every field holds whatever JSON value the document gave. */
  datatype PolicyConfig = PolicyConfig(
    key: Json,
    title: Json,
    description: Json,
    cost: Json,
    effects: Json,
    popularity: Json,
    level: Json,
    requirements: Json,
    consequences: Json)

  const PolicyRequired: seq<string> := ["key", "title", "description"]

  /** `PolicyConfig.from_dict`. */
  function PolicyFromDict(data: map<string, Json>): (r: Result<PolicyConfig>)
    ensures r.Success? <==> "key" in data && "title" in data && "description" in data
    ensures r.Failure? ==> r.error.MissingField? && r.error.name in PolicyRequired && r.error.name !in data
    ensures "key" !in data ==> r == Failure(MissingField("key"))
    ensures r.Success? ==> r.value.key == data["key"] && r.value.title == data["title"]
                           && r.value.description == data["description"]
    // each optional field is the given value when present and its default when absent
    ensures r.Success? ==> r.value.cost == if "cost" in data then data["cost"] else Num(0.0)
    ensures r.Success? ==> r.value.effects == if "effects" in data then data["effects"] else Obj(map[])
    ensures r.Success? ==> r.value.popularity == if "popularity" in data then data["popularity"] else Num(50.0)
    ensures r.Success? ==> r.value.level == if "level" in data then data["level"] else Str("federal")
    ensures r.Success? ==> r.value.requirements == if "requirements" in data then data["requirements"] else Obj(map[])
    ensures r.Success? ==> r.value.consequences == if "consequences" in data then data["consequences"] else Arr([])
  {
    match FirstMissing(data, PolicyRequired)
    case Some(f) => Failure(MissingField(f))
    case None =>
      assert PolicyRequired[1] in data && PolicyRequired[2] in data;
      Success(PolicyConfig(
        key := data["key"],
        title := data["title"],
        description := data["description"],
        cost := Lookup(data, "cost", Num(0.0)),
        effects := Lookup(data, "effects", Obj(map[])),
        popularity := Lookup(data, "popularity", Num(50.0)),
        level := Lookup(data, "level", Str("federal")),
        requirements := Lookup(data, "requirements", Obj(map[])),
        consequences := Lookup(data, "consequences", Arr([]))))
  }

  /** A record written out with all nine fields. */
  function PolicyToDict(c: PolicyConfig): map<string, Json>
  {
    map["key" := c.key, "title" := c.title, "description" := c.description, "cost" := c.cost,
        "effects" := c.effects, "popularity" := c.popularity, "level" := c.level,
        "requirements" := c.requirements, "consequences" := c.consequences]
  }

  /** Reading back a record written out in full gives the same record. */
  lemma PolicyRoundTrip(c: PolicyConfig)
    ensures PolicyFromDict(PolicyToDict(c)) == Success(c)
  {
    assert FirstMissing(PolicyToDict(c), PolicyRequired) == None;
  }

  /** With only the required fields given, the cost is 0.0, the popularity
      50.0, the level "federal", and effects, requirements and consequences
      are empty. */
  lemma PolicyDefaults(key: Json, title: Json, description: Json)
    ensures PolicyFromDict(map["key" := key, "title" := title, "description" := description]) ==
            Success(PolicyConfig(key, title, description, Num(0.0), Obj(map[]), Num(50.0), Str("federal"),
                                 Obj(map[]), Arr([])))
  {
    assert FirstMissing(map["key" := key, "title" := title, "description" := description], PolicyRequired) == None;
  }

  /** An entry of the `events` list: `from_dict` indexes it, so it must be an
      object. */
  function EventFromJson(j: Json): (r: Result<EventConfig>)
    ensures !j.Obj? ==> r == Failure(NotADict)
    ensures j.Obj? ==> r == EventFromDict(j.fields)
  {
    if j.Obj? then EventFromDict(j.fields) else Failure(NotADict)
  }

  function PolicyFromJson(j: Json): (r: Result<PolicyConfig>)
    ensures !j.Obj? ==> r == Failure(NotADict)
    ensures j.Obj? ==> r == PolicyFromDict(j.fields)
  {
    if j.Obj? then PolicyFromDict(j.fields) else Failure(NotADict)
  }

  function EventKey(c: EventConfig): Json { c.key }

  function PolicyKey(c: PolicyConfig): Json { c.key }

  /** The entries `for ... in data.get(field, [])` walks over.  The document
      must be an object; an absent field walks over nothing.  Walking an
      object or a string yields strings, which the record builder cannot
      index, so only an empty one gets through; numbers, booleans and null
      cannot be walked at all. */
  function Entries(doc: Json, field: string): (r: Result<seq<Json>>)
    ensures !doc.Obj? ==> r == Failure(NotADict)
    ensures doc.Obj? && field !in doc.fields ==> r == Success([])
    ensures doc.Obj? && field in doc.fields && doc.fields[field].Arr? ==> r == Success(doc.fields[field].items)
  {
    if !doc.Obj? then Failure(NotADict)
    else
      match Lookup(doc.fields, field, Arr([]))
      case Arr(items) => Success(items)
      case Obj(m) => if |m| == 0 then Success([]) else Failure(NotADict)
      case Str(s) => if |s| == 0 then Success([]) else Failure(NotADict)
      case _ => Failure(NotIterable)
  }

  /** A store after a load: what was inserted, and the error that stopped the
      walk, if one did. */
  datatype Loaded<C> = Loaded(store: ODict<Json, C>, error: Option<LoadError>)

  /** Insert the entries in order, each under its own key; the first entry
      that fails stops the walk and keeps what was inserted before it. */
  function InsertAll<C>(store: ODict<Json, C>, items: seq<Json>, parse: Json -> Result<C>, keyOf: C -> Json): (r: Loaded<C>)
    ensures store.keys <= r.store.keys
    ensures |r.store.keys| <= |store.keys| + |items|
    decreases |items|
  {
    if items == [] then Loaded(store, None)
    else
      match parse(items[0])
      case Failure(e) => Loaded(store, Some(e))
      case Success(c) =>
        if !Hashable(keyOf(c)) then Loaded(store, Some(UnhashableKey))
        else InsertAll(store.Put(keyOf(c), c), items[1..], parse, keyOf)
  }

  /** The whole load of one file: nothing when the file is absent. */
  function LoadFrom<C>(store: ODict<Json, C>, doc: Option<Json>, field: string,
                       parse: Json -> Result<C>, keyOf: C -> Json): (r: Loaded<C>)
    ensures doc.None? ==> r == Loaded(store, None)
    ensures doc.Some? && !doc.value.Obj? ==> r == Loaded(store, Some(NotADict))
    ensures store.keys <= r.store.keys
  {
    if doc.None? then Loaded(store, None)
    else
      match Entries(doc.value, field)
      case Failure(e) => Loaded(store, Some(e))
      case Success(items) => InsertAll(store, items, parse, keyOf)
  }

  /** Every entry is filed under its own record's key. */
  ghost predicate FiledByKey<C>(d: ODict<Json, C>, keyOf: C -> Json)
  {
    forall k :: k in d.entries ==> keyOf(d.entries[k]) == k
  }

  /** The key of entry `j`, when it parses. */
  function KeyAt<C>(items: seq<Json>, parse: Json -> Result<C>, keyOf: C -> Json, j: nat): Option<Json>
    requires j < |items|
  {
    if parse(items[j]).Success? then Some(keyOf(parse(items[j]).value)) else None
  }

  /** Loading keeps the store well formed and every entry under its own key,
      whether or not the walk stops early. */
  lemma {:induction false} InsertAllFiled<C>(store: ODict<Json, C>, items: seq<Json>, parse: Json -> Result<C>,
                                            keyOf: C -> Json)
    requires store.Valid() && FiledByKey(store, keyOf)
    ensures InsertAll(store, items, parse, keyOf).store.Valid()
    ensures FiledByKey(InsertAll(store, items, parse, keyOf).store, keyOf)
    decreases |items|
  {
    if items != [] && parse(items[0]).Success? && Hashable(keyOf(parse(items[0]).value)) {
      var c := parse(items[0]).value;
      var next := store.Put(keyOf(c), c);
      assert FiledByKey(next, keyOf) by {
        forall k | k in next.entries
          ensures keyOf(next.entries[k]) == k
        {
          assert next.Get(k).Some?;
          if k != keyOf(c) {
            assert next.Get(k) == store.Get(k);
          }
        }
      }
      InsertAllFiled(next, items[1..], parse, keyOf);
    }
  }

  /** A walk with no error parsed every entry and met only hashable keys. */
  lemma {:induction false} InsertAllNoError<C>(store: ODict<Json, C>, items: seq<Json>, parse: Json -> Result<C>,
                                              keyOf: C -> Json)
    requires InsertAll(store, items, parse, keyOf).error.None?
    ensures forall j :: 0 <= j < |items| ==> parse(items[j]).Success? && Hashable(keyOf(parse(items[j]).value))
    decreases |items|
  {
    if items != [] {
      var c := parse(items[0]).value;
      InsertAllNoError(store.Put(keyOf(c), c), items[1..], parse, keyOf);
      forall j | 1 <= j < |items|
        ensures parse(items[j]).Success? && Hashable(keyOf(parse(items[j]).value))
      {
        assert items[j] == items[1..][j - 1];
      }
    }
  }

  /** A key that no entry carries keeps whatever the store held for it. */
  lemma {:induction false} InsertAllKeepsOthers<C>(store: ODict<Json, C>, items: seq<Json>, parse: Json -> Result<C>,
                                                  keyOf: C -> Json, k: Json)
    requires forall j :: 0 <= j < |items| ==> KeyAt(items, parse, keyOf, j) != Some(k)
    ensures InsertAll(store, items, parse, keyOf).store.Get(k) == store.Get(k)
    decreases |items|
  {
    if items != [] && parse(items[0]).Success? && Hashable(keyOf(parse(items[0]).value)) {
      var c := parse(items[0]).value;
      assert KeyAt(items, parse, keyOf, 0) == Some(keyOf(c));
      forall j | 0 <= j < |items[1..]|
        ensures KeyAt(items[1..], parse, keyOf, j) != Some(k)
      {
        assert items[1..][j] == items[j + 1];
        assert KeyAt(items[1..], parse, keyOf, j) == KeyAt(items, parse, keyOf, j + 1);
      }
      InsertAllKeepsOthers(store.Put(keyOf(c), c), items[1..], parse, keyOf, k);
    }
  }

  /** After a walk with no error, an entry whose key no later entry repeats
      is the one filed under that key: a later duplicate overwrites an
      earlier one. */
  lemma {:induction false} InsertAllLastWins<C>(store: ODict<Json, C>, items: seq<Json>, parse: Json -> Result<C>,
                                               keyOf: C -> Json, i: nat)
    requires InsertAll(store, items, parse, keyOf).error.None?
    requires i < |items|
    requires forall j :: i < j < |items| ==> KeyAt(items, parse, keyOf, j) != KeyAt(items, parse, keyOf, i)
    ensures parse(items[i]).Success?
    ensures InsertAll(store, items, parse, keyOf).store.Get(keyOf(parse(items[i]).value)) == Some(parse(items[i]).value)
    decreases |items|
  {
    InsertAllNoError(store, items, parse, keyOf);
    var c := parse(items[0]).value;
    var next := store.Put(keyOf(c), c);
    if i == 0 {
      forall j | 0 <= j < |items[1..]|
        ensures KeyAt(items[1..], parse, keyOf, j) != Some(keyOf(c))
      {
        assert items[1..][j] == items[j + 1];
        assert KeyAt(items[1..], parse, keyOf, j) == KeyAt(items, parse, keyOf, j + 1);
        assert KeyAt(items, parse, keyOf, 0) == Some(keyOf(c));
      }
      InsertAllKeepsOthers(next, items[1..], parse, keyOf, keyOf(c));
    } else {
      forall j | i - 1 < j < |items[1..]|
        ensures KeyAt(items[1..], parse, keyOf, j) != KeyAt(items[1..], parse, keyOf, i - 1)
      {
        assert items[1..][j] == items[j + 1];
        assert items[1..][i - 1] == items[i];
        assert KeyAt(items[1..], parse, keyOf, j) == KeyAt(items, parse, keyOf, j + 1);
        assert KeyAt(items[1..], parse, keyOf, i - 1) == KeyAt(items, parse, keyOf, i);
      }
      InsertAllLastWins(next, items[1..], parse, keyOf, i - 1);
      assert items[1..][i - 1] == items[i];
    }
  }

  /** `p.level == level` for a level given as a string. */
  function FilterLevel(ps: seq<PolicyConfig>, level: string): (r: seq<PolicyConfig>)
    ensures |r| <= |ps|
    ensures forall p :: p in r <==> p in ps && p.level == Str(level)
  {
    if ps == [] then []
    else if ps[0].level == Str(level) then [ps[0]] + FilterLevel(ps[1..], level)
    else FilterLevel(ps[1..], level)
  }

  /** The filter keeps stored order: filtering a concatenation filters each
      part in turn. */
  lemma {:induction false} FilterLevelAppend(ps: seq<PolicyConfig>, qs: seq<PolicyConfig>, level: string)
    ensures FilterLevel(ps + qs, level) == FilterLevel(ps, level) + FilterLevel(qs, level)
  {
    if ps != [] {
      assert (ps + qs)[0] == ps[0];
      assert (ps + qs)[1..] == ps[1..] + qs;
      FilterLevelAppend(ps[1..], qs, level);
    } else {
      assert ps + qs == qs;
    }
  }

  /** The event and policy stores. */
  class ConfigLoader {
    const configDir: string
    var events: ODict<Json, EventConfig>
    var policies: ODict<Json, PolicyConfig>

    /** Both stores are well-formed dictionaries with every record filed
        under its own key. */
    ghost predicate Valid()
      reads this
    {
      && events.Valid() && FiledByKey(events, EventKey)
      && policies.Valid() && FiledByKey(policies, PolicyKey)
    }

    /** The stores before `_load_configurations` runs. */
    constructor (configDir: string := "config")
      ensures this.configDir == configDir
      ensures events == Empty() && policies == Empty()
      ensures Valid()
    {
      this.configDir := configDir;
      events := Empty();
      policies := Empty();
    }

    /** `_load_events`, given the parsed `events.json` (None when the file is
        absent): each entry of its `events` list is built and filed under its
        key, in order; an error stops the walk. */
    method LoadEvents(doc: Option<Json>) returns (err: Option<LoadError>)
      requires Valid()
      modifies this`events
      ensures Valid()
      ensures Loaded(events, err) == LoadFrom(old(events), doc, "events", EventFromJson, EventKey)
    {
      err := None;
      if doc.None? {
        return;
      }
      var entries := Entries(doc.value, "events");
      if entries.Failure? {
        return Some(entries.error);
      }
      var items := entries.value;
      var i := 0;
      while i < |items|
        invariant 0 <= i <= |items|
        invariant InsertAll(events, items[i..], EventFromJson, EventKey) ==
                  InsertAll(old(events), items, EventFromJson, EventKey)
        invariant events.Valid() && FiledByKey(events, EventKey)
      {
        assert items[i..][0] == items[i] && items[i..][1..] == items[i + 1..];
        var parsed := EventFromJson(items[i]);
        if parsed.Failure? {
          return Some(parsed.error);
        }
        var cfg := parsed.value;
        if !Hashable(cfg.key) {
          return Some(UnhashableKey);
        }
        InsertAllFiled(events, [items[i]], EventFromJson, EventKey);
        events := events.Put(cfg.key, cfg);
        i := i + 1;
      }
    }

    /** `_load_policies`, the same walk over the `policies` list of
        `policies.json`. */
    method LoadPolicies(doc: Option<Json>) returns (err: Option<LoadError>)
      requires Valid()
      modifies this`policies
      ensures Valid()
      ensures Loaded(policies, err) == LoadFrom(old(policies), doc, "policies", PolicyFromJson, PolicyKey)
    {
      err := None;
      if doc.None? {
        return;
      }
      var entries := Entries(doc.value, "policies");
      if entries.Failure? {
        return Some(entries.error);
      }
      var items := entries.value;
      var i := 0;
      while i < |items|
        invariant 0 <= i <= |items|
        invariant InsertAll(policies, items[i..], PolicyFromJson, PolicyKey) ==
                  InsertAll(old(policies), items, PolicyFromJson, PolicyKey)
        invariant policies.Valid() && FiledByKey(policies, PolicyKey)
      {
        assert items[i..][0] == items[i] && items[i..][1..] == items[i + 1..];
        var parsed := PolicyFromJson(items[i]);
        if parsed.Failure? {
          return Some(parsed.error);
        }
        var cfg := parsed.value;
        if !Hashable(cfg.key) {
          return Some(UnhashableKey);
        }
        InsertAllFiled(policies, [items[i]], PolicyFromJson, PolicyKey);
        policies := policies.Put(cfg.key, cfg);
        i := i + 1;
      }
    }

    /** `_load_configurations`: events, then policies; an error while loading
        events escapes before the policies are read. */
    method LoadConfigurations(eventsDoc: Option<Json>, policiesDoc: Option<Json>) returns (err: Option<LoadError>)
      requires Valid()
      modifies this`events, this`policies
      ensures Valid()
      ensures events == LoadFrom(old(events), eventsDoc, "events", EventFromJson, EventKey).store
      ensures LoadFrom(old(events), eventsDoc, "events", EventFromJson, EventKey).error.Some? ==>
                err == LoadFrom(old(events), eventsDoc, "events", EventFromJson, EventKey).error &&
                policies == old(policies)
      ensures LoadFrom(old(events), eventsDoc, "events", EventFromJson, EventKey).error.None? ==>
                Loaded(policies, err) == LoadFrom(old(policies), policiesDoc, "policies", PolicyFromJson, PolicyKey)
    {
      err := LoadEvents(eventsDoc);
      if err.None? {
        err := LoadPolicies(policiesDoc);
      }
    }

    /** `get_event`: None for a key that was never stored, otherwise the
        stored record, whose own key is the one asked for. */
    function GetEvent(key: string): (r: Option<EventConfig>)
      reads this
      requires Valid()
      ensures r.None? <==> Str(key) !in events.entries
      ensures r.Some? ==> r.value.key == Str(key) && r.value == events.entries[Str(key)]
    {
      events.Get(Str(key))
    }

    /** `get_policy`. */
    function GetPolicy(key: string): (r: Option<PolicyConfig>)
      reads this
      requires Valid()
      ensures r.None? <==> Str(key) !in policies.entries
      ensures r.Some? ==> r.value.key == Str(key) && r.value == policies.entries[Str(key)]
    {
      policies.Get(Str(key))
    }

    /** `get_all_events`: the stored records in stored order. */
    function AllEvents(): (r: seq<EventConfig>)
      reads this
      requires Valid()
      ensures |r| == |events.keys|
      ensures forall i :: 0 <= i < |r| ==> r[i] == events.entries[events.keys[i]] && r[i].key == events.keys[i]
    {
      events.Values()
    }

    /** `get_all_policies`. */
    function AllPolicies(): (r: seq<PolicyConfig>)
      reads this
      requires Valid()
      ensures |r| == |policies.keys|
      ensures forall i :: 0 <= i < |r| ==> r[i] == policies.entries[policies.keys[i]] && r[i].key == policies.keys[i]
    {
      policies.Values()
    }

    /** `get_policies_by_level`: exactly the stored policies at that level, in
        stored order. */
    function PoliciesByLevel(level: string): (r: seq<PolicyConfig>)
      reads this
      requires Valid()
      ensures forall p :: p in r <==> p in AllPolicies() && p.level == Str(level)
    {
      FilterLevel(AllPolicies(), level)
    }
  }
}
