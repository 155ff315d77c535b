/** The parse_regex_fields processor: match one string field of an event against a regular
    expression and store every capture group as a field of its own. The regular-expression engine
    is abstract: a compiled expression is its group names and its first-match function. */
module ParseRegexFields {
  import opened Common
  import opened Events

  const DefaultSourceField := "message"

  /** A compiled expression: `subexpNames[k]` names group k ("" when unnamed; group 0 is the whole
      match), and `findStringSubmatch` yields the whole match followed by each group's text. */
  datatype Regexp = Regexp(subexpNames: seq<string>, findStringSubmatch: string -> Option<seq<string>>)

  /** What the regexp package guarantees of a compiled expression: group 0 exists and is unnamed,
      and a match has one entry per group. */
  ghost predicate Compiled(re: Regexp) {
    && |re.subexpNames| >= 1
    && re.subexpNames[0] == ""
    && forall msg :: re.findStringSubmatch(msg).Some? ==> |re.findStringSubmatch(msg).value| == |re.subexpNames|
  }

  datatype Config = Config(regexp: string, sourceField: string)

  datatype Processor = Processor(re: Regexp, sourceField: string)

  /** newParseRegexFields: an empty source field means "message"; an expression that does not
      compile yields an error and no processor. */
  function NewParseRegexFields(config: Config, compile: string -> Result<Regexp, string>): (r: Result<Processor, string>)
    ensures r.Ok? <==> compile(config.regexp).Ok?
    ensures r.Ok? ==> r.value.re == compile(config.regexp).value
    ensures r.Ok? ==> r.value.sourceField != ""
    ensures r.Ok? ==> r.value.sourceField == (if config.sourceField == "" then "message" else config.sourceField)
    ensures r.Err? ==> r.error == "fail to compile the regexp of parse_regex_fields: " + compile(config.regexp).error
  {
    var sourceField := if config.sourceField == "" then DefaultSourceField else config.sourceField;
    match compile(config.regexp)
    case Err(e) => Err("fail to compile the regexp of parse_regex_fields: " + e)
    case Ok(re) => Ok(Processor(re, sourceField))
  }

  /** The field group k is stored under: its name, or the decimal index when it has none. */
  function GroupKey(names: seq<string>, k: nat): (key: string)
    requires k < |names|
    ensures names[k] != "" ==> key == names[k]
    ensures names[k] == "" ==> |key| >= 1 && forall i :: 0 <= i < |key| ==> IsDigit(key[i])
  {
    if names[k] == "" then NatToString(k) else names[k]
  }

  /** `m` after storing groups 1 .. k-1, in ascending order. */
  function PutGroups(m: map<string, Value>, names: seq<string>, groups: seq<string>, k: nat): map<string, Value>
    requires k <= |names| == |groups|
  {
    if k <= 1 then m else PutGroups(m, names, groups, k - 1)[GroupKey(names, k - 1) := Str(groups[k - 1])]
  }

  /** The last group among 1 .. k-1 stored under `key`, if any. */
  function LastGroupWith(names: seq<string>, key: string, k: nat): (r: Option<nat>)
    requires k <= |names|
    ensures r.Some? ==> 1 <= r.value < k && GroupKey(names, r.value) == key
    ensures r.Some? ==> forall j :: r.value < j < k ==> GroupKey(names, j) != key
    ensures r.None? ==> forall j :: 1 <= j < k ==> GroupKey(names, j) != key
  {
    if k <= 1 then None
    else if GroupKey(names, k - 1) == key then Some(k - 1)
    else LastGroupWith(names, key, k - 1)
  }

  /** Storing the groups adds exactly the group keys to the event's fields. */
  lemma {:induction false} PutGroupsKeys(m: map<string, Value>, names: seq<string>, groups: seq<string>, k: nat)
    requires k <= |names| == |groups|
    ensures forall key :: key in PutGroups(m, names, groups, k) <==>
      key in m || LastGroupWith(names, key, k).Some?
  {
    if k > 1 {
      PutGroupsKeys(m, names, groups, k - 1);
    }
  }

  /** Each field afterwards holds the text of the last group stored under it, and a field no group
      is stored under keeps its value. */
  lemma {:induction false} PutGroupsValues(m: map<string, Value>, names: seq<string>, groups: seq<string>, k: nat, key: string)
    requires k <= |names| == |groups|
    requires key in PutGroups(m, names, groups, k)
    ensures LastGroupWith(names, key, k).Some? ==>
      PutGroups(m, names, groups, k)[key] == Str(groups[LastGroupWith(names, key, k).value])
    ensures LastGroupWith(names, key, k).None? ==>
      key in m && PutGroups(m, names, groups, k)[key] == m[key]
  {
    if k > 1 && GroupKey(names, k - 1) != key {
      PutGroupsValues(m, names, groups, k - 1, key);
    }
  }

  /** The source field survives extraction unless a group is stored under its name. */
  lemma SourceFieldKept(m: map<string, Value>, names: seq<string>, groups: seq<string>, field: string)
    requires |names| == |groups|
    requires field in m
    requires forall j :: 1 <= j < |names| ==> GroupKey(names, j) != field
    ensures field in PutGroups(m, names, groups, |names|)
    ensures PutGroups(m, names, groups, |names|)[field] == m[field]
  {
    PutGroupsKeys(m, names, groups, |names|);
    PutGroupsValues(m, names, groups, |names|, field);
  }

  /** Two different unnamed groups are stored under different fields. */
  lemma UnnamedGroupsApart(names: seq<string>, i: nat, j: nat)
    requires i < |names| && j < |names| && i != j
    requires names[i] == "" && names[j] == ""
    ensures GroupKey(names, i) != GroupKey(names, j)
  {
    if GroupKey(names, i) == GroupKey(names, j) {
      NatToStringInjective(i, j);
    }
  }

  /** Every named group of the expression appears in the result with its text, when names are
      pairwise distinct. */
  lemma DistinctNamesStored(m: map<string, Value>, names: seq<string>, groups: seq<string>, i: nat)
    requires |names| == |groups|
    requires 1 <= i < |names|
    requires forall a, b :: 1 <= a < b < |names| ==> GroupKey(names, a) != GroupKey(names, b)
    ensures GroupKey(names, i) in PutGroups(m, names, groups, |names|)
    ensures PutGroups(m, names, groups, |names|)[GroupKey(names, i)] == Str(groups[i])
  {
    var key := GroupKey(names, i);
    PutGroupsKeys(m, names, groups, |names|);
    var last := LastGroupWith(names, key, |names|);
    assert last.Some?;
    assert last.value == i;
    PutGroupsValues(m, names, groups, |names|, key);
  }

  /** parseRegexFields.Run on a copy of the event: no source field or no match leaves the copy
      as it was; a source value that is not a string is a failure (the code dereferences a nil
      error there); a match stores each group 1.. under its key. The caller's event is not changed. */
  method Run(p: Processor, event: MapStr) returns (newEvent: MapStr, failed: bool)
    requires Compiled(p.re)
    ensures fresh(newEvent)
    ensures failed <==> p.sourceField in event.data && !event.data[p.sourceField].Str?
    ensures p.sourceField !in event.data ==> newEvent.data == event.data
    ensures failed ==> newEvent.data == event.data
    ensures p.sourceField in event.data && event.data[p.sourceField].Str? ==>
      var found := p.re.findStringSubmatch(event.data[p.sourceField].s);
      && (found.None? ==> newEvent.data == event.data)
      && (found.Some? ==> newEvent.data == PutGroups(event.data, p.re.subexpNames, found.value, |p.re.subexpNames|))
  {
    newEvent := event.Clone();
    failed := false;
    if !newEvent.HasKey(p.sourceField) {
      return;
    }
    var messageObj := newEvent.data[p.sourceField];
    if !messageObj.Str? {
      failed := true;
      return;
    }
    var findResults := p.re.findStringSubmatch(messageObj.s);
    if findResults.None? {
      return;
    }
    var names := p.re.subexpNames;
    var groups := findResults.value;
    for index := 0 to |names|
      invariant newEvent.data == PutGroups(event.data, names, groups, index)
    {
      if index == 0 {
        continue;
      }
      var name := names[index];
      if name == "" {
        name := NatToString(index);
      }
      newEvent.Put(name, Str(groups[index]));
    }
  }

  /** The named-groups case of the processor's own tests: the four fields are added with the
      matched text and the configured source field is kept. */
  lemma MultiSubmatchExample()
    ensures
      var line := "127.0.0.1@-@[15/May/2017:17:27:01 +0800]@filebeat.lain.test";
      var names := ["", "remote_addr", "remote_user", "time_local", "request_host"];
      var groups := [line, "127.0.0.1", "-", "15/May/2017:17:27:01 +0800", "filebeat.lain.test"];
      PutGroups(map["test_message" := Str(line)], names, groups, 5) ==
        map["test_message" := Str(line), "remote_addr" := Str("127.0.0.1"), "remote_user" := Str("-"),
            "time_local" := Str("15/May/2017:17:27:01 +0800"), "request_host" := Str("filebeat.lain.test")]
  {
    var line := "127.0.0.1@-@[15/May/2017:17:27:01 +0800]@filebeat.lain.test";
    var names := ["", "remote_addr", "remote_user", "time_local", "request_host"];
    var groups := [line, "127.0.0.1", "-", "15/May/2017:17:27:01 +0800", "filebeat.lain.test"];
    var m := map["test_message" := Str(line)];
    assert PutGroups(m, names, groups, 2) == m["remote_addr" := Str("127.0.0.1")];
    assert PutGroups(m, names, groups, 3) == m["remote_addr" := Str("127.0.0.1")]["remote_user" := Str("-")];
  }
}
