/** The ticket builder `tickets_from_alarms`
    (usm2jira/__script__.py:323-383), as specification functions: a first
    pass turns every alarm into a ticket record, a second pass picks each
    ticket's template and renders it against the template store, whose
    description lists the rendering rewrites in place. */
module Tickets {
  import opened Wrappers
  import opened Strings
  import opened Records
  import opened Templates
  import opened Rendering
  import opened Placeholders
  import opened Traversal

  /** `ticket['template']`: the rendered title of the ticket's own copy of
      configured template `source`, and the description list that copy
      shares with the configured template. */
  datatype Filled = Filled(source: nat, titleFirst: bool, title: string, description: seq<string>)

  /** A ticket: its fields in key order, and its template when one was
      selected (otherwise the ticket has no `template` key). */
  datatype Ticket = Ticket(fields: Record, template: Option<Filled>)

  const SensorSources := "alarm_sensor_sources"

  /** The keys the builder writes before copying the alarm in. */
  const DerivedKeys := ["_uuid", "_timestamp", "_priority", "_sources", "_dests", "_sensor", "SensorName", "Date"]

  /** Lines 338-341: the configured name of the sensor, `Unknown` when it
      has none or an empty one. */
  function SensorName(sensors: map<string, string>, sensor: string): (name: string)
    ensures name != ""
  {
    if sensor in sensors && sensors[sensor] != "" then sensors[sensor] else "Unknown"
  }

  /** Lines 338-341 as written: the names of the configured sensors, in the
      configuration's key order `keys`, joined over those equal to `sensor`. */
  function JoinedNames(keys: seq<string>, sensors: map<string, string>, sensor: string): string {
    if keys == [] then ""
    else
      var x := keys[0];
      (if x == sensor && x in sensors then sensors[x] else "") + JoinedNames(keys[1..], sensors, sensor)
  }

  /** Over distinct keys the join picks up the one matching name, if any. */
  lemma {:induction false} JoinedNamesIs(keys: seq<string>, sensors: map<string, string>, sensor: string)
    requires forall i, j :: 0 <= i < j < |keys| ==> keys[i] != keys[j]
    ensures JoinedNames(keys, sensors, sensor) == if sensor in keys && sensor in sensors then sensors[sensor] else ""
    decreases |keys|
  {
    if keys != [] {
      JoinedNamesIs(keys[1..], sensors, sensor);
      if keys[0] == sensor {
        assert sensor !in keys[1..] by {
          forall k | 0 <= k < |keys[1..]|
            ensures keys[1..][k] != sensor
          {
            assert keys[1..][k] == keys[k + 1];
          }
        }
      } else {
        assert sensor in keys <==> sensor in keys[1..] by {
          assert keys == [keys[0]] + keys[1..];
        }
      }
    }
  }

  /** The join, falling back to `Unknown` when empty, is the configured
      name of the sensor: a dictionary's keys are distinct and are exactly
      the keys it iterates over. */
  lemma SensorNameJoined(keys: seq<string>, sensors: map<string, string>, sensor: string)
    requires forall i, j :: 0 <= i < j < |keys| ==> keys[i] != keys[j]
    requires forall k :: k in sensors <==> k in keys
    ensures SensorName(sensors, sensor) == (var j := JoinedNames(keys, sensors, sensor); if j == "" then "Unknown" else j)
  {
    JoinedNamesIs(keys, sensors, sensor);
  }

  /** Line 342: `timestamp[2:10].replace('-', '')`. */
  function Date(timestamp: string): string {
    ReplaceAll(Slice(timestamp, 2, 10), "-", "")
  }

  lemma {:induction false} DropDashes(s: string)
    ensures '-' !in ReplaceAll(s, "-", "") && |ReplaceAll(s, "-", "")| <= |s|
    decreases |s|
  {
    if |s| >= 1 {
      DropDashes(s[1..]);
      if s[..1] != "-" {
        assert s[0] != '-' by { assert s[..1] == [s[0]]; }
      }
    }
  }

  /** The date token is at most eight characters long and holds no `-`. */
  lemma DateShape(timestamp: string)
    ensures '-' !in Date(timestamp) && |Date(timestamp)| <= 8
  {
    DropDashes(Slice(timestamp, 2, 10));
  }

  /** Removing dashes decides on the first character and goes on with the
      rest. */
  lemma DropFirst(s: string)
    requires |s| >= 1
    ensures ReplaceAll(s, "-", "") == (if s[0] == '-' then "" else [s[0]]) + ReplaceAll(s[1..], "-", "")
  {
    assert s[..1] == [s[0]];
  }

  /** An ISO 8601 timestamp `YYYY-MM-DD...` gives its two-digit year, month
      and day, run together. */
  lemma DateOfIsoTimestamp(timestamp: string)
    requires |timestamp| >= 10 && timestamp[4] == '-' && timestamp[7] == '-'
    requires timestamp[2] != '-' && timestamp[3] != '-' && timestamp[5] != '-'
    requires timestamp[6] != '-' && timestamp[8] != '-' && timestamp[9] != '-'
    ensures Date(timestamp) == timestamp[2..4] + timestamp[5..7] + timestamp[8..10]
  {
    var d := timestamp[2..10];
    assert Slice(timestamp, 2, 10) == d;
    DropFirst(d);
    DropFirst(d[1..]);
    DropFirst(d[2..]);
    DropFirst(d[3..]);
    DropFirst(d[4..]);
    DropFirst(d[5..]);
    DropFirst(d[6..]);
    DropFirst(d[7..]);
    assert d[8..] == [];
  }

  /** `alarm.get(key, list())`. */
  function GetOrEmpty(alarm: Alarm, key: string): Value {
    match Get(alarm, key)
    case Some(v) => v
    case None => Strs([])
  }

  /** The alarm can become a ticket record: the keys the builder reads are
      there, the sensor list is a non-empty list and the timestamp is text. */
  predicate Preparable(alarm: Alarm) {
    && Get(alarm, "uuid").Some?
    && Get(alarm, "timestamp_occured_iso8601").Some?
    && Get(alarm, "timestamp_occured_iso8601").value.Str?
    && Get(alarm, "priority_label").Some?
    && Get(alarm, SensorSources).Some?
    && Get(alarm, SensorSources).value.Strs?
    && Get(alarm, SensorSources).value.items != []
  }

  /** The entries lines 331-342 write for an alarm whose popped sensor is
      `sensor`, in the order they are written. */
  function Derived(alarm: Alarm, sensors: map<string, string>, sensor: string, timestamp: string): (d: Record)
    requires Get(alarm, "uuid").Some? && Get(alarm, "priority_label").Some?
    ensures Keys(d) == DerivedKeys && Keyed(d)
    ensures Get(d, "_uuid") == Get(alarm, "uuid")
    ensures Get(d, "_timestamp") == Some(Str(timestamp))
    ensures Get(d, "_priority") == Get(alarm, "priority_label")
    ensures Get(d, "_sources") == Some(GetOrEmpty(alarm, "alarm_source_names"))
    ensures Get(d, "_dests") == Some(GetOrEmpty(alarm, "alarm_destination_names"))
    ensures Get(d, "_sensor") == Some(Str(sensor))
    ensures Get(d, "SensorName") == Some(Str(SensorName(sensors, sensor)))
    ensures Get(d, "Date") == Some(Str(Date(timestamp)))
  {
    var d := [
      ("_uuid", Get(alarm, "uuid").value),
      ("_timestamp", Str(timestamp)),
      ("_priority", Get(alarm, "priority_label").value),
      ("_sources", GetOrEmpty(alarm, "alarm_source_names")),
      ("_dests", GetOrEmpty(alarm, "alarm_destination_names")),
      ("_sensor", Str(sensor)),
      ("SensorName", Str(SensorName(sensors, sensor))),
      ("Date", Str(Date(timestamp)))];
    KeysAre(d);
    assert Keys(d) == DerivedKeys;
    GetAt(d, 0);
    GetAt(d, 1);
    GetAt(d, 2);
    GetAt(d, 3);
    GetAt(d, 4);
    GetAt(d, 5);
    GetAt(d, 6);
    GetAt(d, 7);
    d
  }

  /** Lines 329-343 for one alarm: the alarm after its sensor list has been
      popped, and the new ticket's fields, derived keys first and then the
      alarm's own, which override derived keys of the same name. */
  function Prepare(alarm: Alarm, sensors: map<string, string>): (r: Result<(Alarm, Record), Fault>)
    ensures r.Ok? <==> Preparable(alarm)
  {
    if Get(alarm, "uuid").None? then Err(MissingKey("uuid"))
    else if Get(alarm, "timestamp_occured_iso8601").None? then Err(MissingKey("timestamp_occured_iso8601"))
    else if Get(alarm, "priority_label").None? then Err(MissingKey("priority_label"))
    else
      match Get(alarm, SensorSources)
      case Some(Strs(items)) =>
        if items == [] then Err(EmptyList(SensorSources))
        else
          (match Get(alarm, "timestamp_occured_iso8601").value
           case Str(timestamp) =>
             var popped := Put(alarm, SensorSources, Strs(items[..|items| - 1]));
             Ok((popped, Update(Derived(alarm, sensors, items[|items| - 1], timestamp), popped)))
           case _ => Err(WrongType("timestamp_occured_iso8601")))
      case _ => Err(WrongType(SensorSources))
  }

  /** What the first pass does to an alarm: the pop removes the last
      sensor and nothing else. */
  lemma PrepareSpec(alarm: Alarm, sensors: map<string, string>)
    requires Keyed(alarm) && Preparable(alarm)
    ensures Prepare(alarm, sensors).Ok?
    ensures
      var popped := Prepare(alarm, sensors).value.0;
      var items := Get(alarm, SensorSources).value.items;
      && Keys(popped) == Keys(alarm) && Keyed(popped)
      && Get(popped, SensorSources) == Some(Strs(items[..|items| - 1]))
      && (forall k :: k != SensorSources ==> Get(popped, k) == Get(alarm, k))
  {
    var items := Get(alarm, SensorSources).value.items;
    assert Prepare(alarm, sensors).value.0 == Put(alarm, SensorSources, Strs(items[..|items| - 1]));
    PopLast(alarm, items);
  }

  /** `alarm_sensor_sources.pop()`: the list loses its last element, and no
      other key or value changes. */
  lemma PopLast(alarm: Alarm, items: seq<string>)
    requires Keyed(alarm) && Get(alarm, SensorSources) == Some(Strs(items)) && items != []
    ensures var popped := Put(alarm, SensorSources, Strs(items[..|items| - 1]));
      && Keys(popped) == Keys(alarm) && Keyed(popped)
      && Get(popped, SensorSources) == Some(Strs(items[..|items| - 1]))
      && (forall k :: k != SensorSources ==> Get(popped, k) == Get(alarm, k))
  {
  }

  /** The ticket record the first pass builds: the eight derived keys in the
      order they are written, then the alarm's other keys in the alarm's
      order; every alarm field as popped; and each derived value unless the
      alarm has a key of that name. */
  lemma PrepareFields(alarm: Alarm, sensors: map<string, string>)
    requires Keyed(alarm) && Preparable(alarm)
    ensures Prepare(alarm, sensors).Ok?
    ensures
      var (popped, fields) := Prepare(alarm, sensors).value;
      var items := Get(alarm, SensorSources).value.items;
      var sensor := items[|items| - 1];
      var timestamp := Get(alarm, "timestamp_occured_iso8601").value.s;
      var d := Derived(alarm, sensors, sensor, timestamp);
      && Keyed(fields)
      && Keys(fields) == DerivedKeys + NewKeys(Keys(alarm), DerivedKeys)
      && (forall k :: k in Keys(alarm) ==> Get(fields, k) == Get(popped, k))
      && (forall k :: k in DerivedKeys && k !in Keys(alarm) ==> Get(fields, k) == Get(d, k))
  {
    PrepareSpec(alarm, sensors);
    var items := Get(alarm, SensorSources).value.items;
    var timestamp := Get(alarm, "timestamp_occured_iso8601").value.s;
    var popped := Prepare(alarm, sensors).value.0;
    var d := Derived(alarm, sensors, items[|items| - 1], timestamp);
    assert Prepare(alarm, sensors).value.1 == Update(d, popped);
    UpdateKeys(d, popped);
  }

  /** The derived values a ticket record carries for an alarm that has no
      key of those names (lines 331-342). */
  lemma PreparedValues(alarm: Alarm, sensors: map<string, string>)
    requires Keyed(alarm) && Preparable(alarm)
    requires NoDerivedKeys(Keys(alarm))
    ensures Prepare(alarm, sensors).Ok?
    ensures
      var fields := Prepare(alarm, sensors).value.1;
      var items := Get(alarm, SensorSources).value.items;
      var sensor := items[|items| - 1];
      var timestamp := Get(alarm, "timestamp_occured_iso8601").value.s;
      && Get(fields, "_uuid") == Get(alarm, "uuid")
      && Get(fields, "_timestamp") == Some(Str(timestamp))
      && Get(fields, "_priority") == Get(alarm, "priority_label")
      && Get(fields, "_sources") == Some(GetOrEmpty(alarm, "alarm_source_names"))
      && Get(fields, "_dests") == Some(GetOrEmpty(alarm, "alarm_destination_names"))
      && Get(fields, "_sensor") == Some(Str(sensor))
      && Get(fields, "SensorName") == Some(Str(SensorName(sensors, sensor)))
      && Get(fields, "Date") == Some(Str(Date(timestamp)))
  {
    var items := Get(alarm, SensorSources).value.items;
    var popped := Put(alarm, SensorSources, Strs(items[..|items| - 1]));
    PrepareIs(alarm, sensors);
    PopLast(alarm, items);
    DerivedKept(alarm, sensors, items[|items| - 1], Get(alarm, "timestamp_occured_iso8601").value.s, popped);
  }

  /** Lines 336-343 for an alarm that can be prepared: the popped alarm, and
      the derived entries updated with it. */
  lemma PrepareIs(alarm: Alarm, sensors: map<string, string>)
    requires Preparable(alarm)
    ensures var items := Get(alarm, SensorSources).value.items;
      var popped := Put(alarm, SensorSources, Strs(items[..|items| - 1]));
      var timestamp := Get(alarm, "timestamp_occured_iso8601").value.s;
      Prepare(alarm, sensors) == Ok((popped, Update(Derived(alarm, sensors, items[|items| - 1], timestamp), popped)))
  {
  }

  /** The prepared record carries the alarm's uuid under `_uuid`, unless the
      alarm has a `_uuid` field of its own. */
  lemma PreparedUuid(alarm: Alarm, sensors: map<string, string>)
    requires Keyed(alarm) && Preparable(alarm) && "_uuid" !in Keys(alarm)
    ensures Get(Prepare(alarm, sensors).value.1, "_uuid") == Get(alarm, "uuid")
  {
    PrepareFields(alarm, sensors);
  }

  /** A field of the alarm other than the sensor list reads the same in the
      prepared record. */
  lemma PreparedKeeps(alarm: Alarm, sensors: map<string, string>, k: string)
    requires Keyed(alarm) && Preparable(alarm) && k in Keys(alarm) && k != SensorSources
    ensures Get(Prepare(alarm, sensors).value.1, k) == Get(alarm, k)
  {
    PrepareSpec(alarm, sensors);
    PrepareFields(alarm, sensors);
  }

  /** None of the derived keys is among `keys`. */
  predicate NoDerivedKeys(keys: seq<string>) {
    && "_uuid" !in keys && "_timestamp" !in keys && "_priority" !in keys && "_sources" !in keys
    && "_dests" !in keys && "_sensor" !in keys && "SensorName" !in keys && "Date" !in keys
  }

  /** Copying in an alarm with none of the derived keys keeps every derived
      value. */
  lemma DerivedKept(alarm: Alarm, sensors: map<string, string>, sensor: string, timestamp: string, popped: Alarm)
    requires Get(alarm, "uuid").Some? && Get(alarm, "priority_label").Some?
    requires Keyed(popped) && NoDerivedKeys(Keys(popped))
    ensures var u := Update(Derived(alarm, sensors, sensor, timestamp), popped);
      && Get(u, "_uuid") == Get(alarm, "uuid")
      && Get(u, "_timestamp") == Some(Str(timestamp))
      && Get(u, "_priority") == Get(alarm, "priority_label")
      && Get(u, "_sources") == Some(GetOrEmpty(alarm, "alarm_source_names"))
      && Get(u, "_dests") == Some(GetOrEmpty(alarm, "alarm_destination_names"))
      && Get(u, "_sensor") == Some(Str(sensor))
      && Get(u, "SensorName") == Some(Str(SensorName(sensors, sensor)))
      && Get(u, "Date") == Some(Str(Date(timestamp)))
  {
  }

  function Preparer(sensors: map<string, string>): Alarm -> Result<(Alarm, Record), Fault> {
    alarm => Prepare(alarm, sensors)
  }

  /** The first pass over all alarms (lines 328-344): it stops at the first
      alarm that raises. */
  function PrepareAll(alarms: seq<Alarm>, sensors: map<string, string>): Result<seq<(Alarm, Record)>, Fault> {
    Traverse(alarms, Preparer(sensors))
  }

  /** When the first pass succeeds, entry `i` is what alarm `i` gives. */
  lemma PrepareAllEach(alarms: seq<Alarm>, sensors: map<string, string>, i: nat)
    requires PrepareAll(alarms, sensors).Ok? && i < |alarms|
    ensures Prepare(alarms[i], sensors) == Ok(PrepareAll(alarms, sensors).value[i])
  {
    TraverseEach(alarms, Preparer(sensors), i);
  }

  /** When the first pass fails, it fails with the fault of the first alarm
      that raises. */
  lemma PrepareAllFault(alarms: seq<Alarm>, sensors: map<string, string>)
    requires PrepareAll(alarms, sensors).Err?
    ensures exists i :: (0 <= i < |alarms| && Prepare(alarms[i], sensors) == Err(PrepareAll(alarms, sensors).error) &&
      forall k :: 0 <= k < i ==> Prepare(alarms[k], sensors).Ok?)
  {
    TraverseFault(alarms, Preparer(sensors));
  }

  /** The description lines as the first ticket rendered from a template
      leaves them: each line on its own, placeholders replaced, then the
      fallback. */
  function RenderedLines(fields: Record, description: seq<string>): (lines: seq<string>)
    ensures |lines| == |description|
  {
    seq(|description|, k requires 0 <= k < |description| => Fallback(RenderText(fields, description[k])))
  }

  predicate DollarFreeLines(lines: seq<string>) {
    forall k :: 0 <= k < |lines| ==> '$' !in lines[k]
  }

  /** Lines 347-382 for one ticket, against the template store as it is now:
      select, render on a copy whose description list is the stored one,
      and leave the rendered lines in the store. */
  function BuildOne(fields: Record, store: seq<Template>): Result<(Ticket, seq<Template>), Fault> {
    match SelectTemplate(fields, store)
    case Err(e) => Err(e)
    case Ok(None) => Ok((Ticket(fields, None), store))
    case Ok(Some(j)) =>
      var t := store[j];
      var d := RenderFields(fields, t.title, t.description);
      var lines := FallbackLines(d.description);
      Ok((Ticket(d.fields, Some(Filled(j, t.titleFirst, d.title, lines))), store[j := t.(description := lines)]))
  }

  /** The second pass over all ticket records (lines 346-383). */
  function Build(records: seq<Record>, store: seq<Template>): (r: Result<(seq<Ticket>, seq<Template>), Fault>)
    ensures r.Ok? ==> |r.value.0| == |records| && |r.value.1| == |store|
  {
    if records == [] then Ok(([], store))
    else
      match Build(records[..|records| - 1], store)
      case Err(e) => Err(e)
      case Ok((tickets, st)) =>
        match BuildOne(records[|records| - 1], st)
        case Err(e) => Err(e)
        case Ok((t, st')) => Ok((tickets + [t], st'))
  }

  lemma {:induction false} BuildErrPrefix(records: seq<Record>, store: seq<Template>, k: nat)
    requires k <= |records| && Build(records[..k], store).Err?
    ensures Build(records, store) == Err(Build(records[..k], store).error)
    decreases |records| - k
  {
    if k < |records| {
      assert records[..k + 1][..k] == records[..k];
      BuildErrPrefix(records, store, k + 1);
    } else {
      assert records[..k] == records;
    }
  }

  /** Some ticket was rendered from configured template `j`. */
  predicate UsedBy(tickets: seq<Ticket>, j: nat) {
    exists i :: 0 <= i < |tickets| && tickets[i].template.Some? && tickets[i].template.value.source == j
  }

  /** Only descriptions change in the store. */
  predicate SameButDescriptions(st: seq<Template>, store: seq<Template>) {
    |st| == |store| && forall j :: 0 <= j < |st| ==> st[j] == store[j].(description := st[j].description)
  }

  /** One ticket: the selected template's title is rendered on the copy, and
      its description is rendered in the store; a description that an
      earlier ticket already rendered holds no `$` and stays as it is. */
  lemma BuildOneSpec(fields: Record, store: seq<Template>)
    requires BuildOne(fields, store).Ok?
    ensures
      var (t, st) := BuildOne(fields, store).value;
      && SameButDescriptions(st, store)
      && (t.template.None? ==> SelectTemplate(fields, store) == Ok(None) && t.fields == fields && st == store)
      && (t.template.Some? ==>
            var f := t.template.value;
            && SelectTemplate(fields, store) == Ok(Some(f.source))
            && f.source < |store|
            && f.title == RenderText(fields, store[f.source].title)
            && f.titleFirst == store[f.source].titleFirst
            && f.description == st[f.source].description
            && f.description == RenderedLines(fields, store[f.source].description)
            && DollarFreeLines(f.description)
            && (forall j :: 0 <= j < |st| && j != f.source ==> st[j] == store[j])
            && (DollarFreeLines(store[f.source].description) ==> st == store))
  {
    var (t, st) := BuildOne(fields, store).value;
    if t.template.Some? {
      var j := t.template.value.source;
      var tpl := store[j];
      var d := RenderFields(fields, tpl.title, tpl.description);
      RenderFieldsPerText(fields, tpl.title, tpl.description);
      forall k | 0 <= k < |d.description|
        ensures '$' !in FallbackLines(d.description)[k]
      {
        FallbackDollarFree(d.description[k]);
      }
      if DollarFreeLines(tpl.description) {
        forall k | 0 <= k < |tpl.description|
          ensures FallbackLines(d.description)[k] == tpl.description[k]
        {
          RenderTextDollarFree(fields, tpl.description[k]);
          FallbackOfDollarFree(tpl.description[k]);
        }
        assert FallbackLines(d.description) == tpl.description;
        assert st == store;
      }
    }
  }

  /** The ticket keeps the record's keys in order and every value's text;
      only a list may have been joined into one string. */
  lemma BuildOneFields(fields: Record, store: seq<Template>)
    requires BuildOne(fields, store).Ok?
    ensures var t := BuildOne(fields, store).value.0;
      && |t.fields| == |fields|
      && forall i :: 0 <= i < |fields| ==> t.fields[i].0 == fields[i].0 && Text(t.fields[i].1) == Text(fields[i].1)
  {
    match SelectTemplate(fields, store)
    case Ok(Some(j)) =>
      RenderFieldsPerText(fields, store[j].title, store[j].description);
    case _ =>
  }

  /** The builder's tickets for a prefix of the records are a prefix of its
      tickets. */
  lemma BuildStep(records: seq<Record>, store: seq<Template>)
    requires records != [] && Build(records, store).Ok?
    ensures Build(records[..|records| - 1], store).Ok?
    ensures var (tickets, st) := Build(records[..|records| - 1], store).value;
      && BuildOne(records[|records| - 1], st).Ok?
      && Build(records, store).value.0 == tickets + [BuildOne(records[|records| - 1], st).value.0]
      && Build(records, store).value.1 == BuildOne(records[|records| - 1], st).value.1
  {
  }

  lemma UsedByAppend(tickets: seq<Ticket>, t: Ticket, j: nat)
    ensures UsedBy(tickets + [t], j) <==> UsedBy(tickets, j) || (t.template.Some? && t.template.value.source == j)
  {
    var all := tickets + [t];
    if UsedBy(tickets, j) {
      var i :| 0 <= i < |tickets| && tickets[i].template.Some? && tickets[i].template.value.source == j;
      assert all[i] == tickets[i];
    }
    if t.template.Some? && t.template.value.source == j {
      assert all[|tickets|] == t;
    }
    if UsedBy(all, j) {
      var i :| 0 <= i < |all| && all[i].template.Some? && all[i].template.value.source == j;
      if i < |tickets| {
        assert all[i] == tickets[i];
      }
    }
  }

  /** Over all tickets: one ticket per record, only descriptions change in
      the store, a description that changed holds no `$`, and a template
      no ticket used is left as configured. */
  lemma {:induction false} BuildShape(records: seq<Record>, store: seq<Template>)
    requires Build(records, store).Ok?
    ensures var (tickets, st) := Build(records, store).value;
      && |tickets| == |records|
      && SameButDescriptions(st, store)
      && (forall j :: 0 <= j < |st| && st[j] != store[j] ==> DollarFreeLines(st[j].description))
      && (forall j :: 0 <= j < |st| && !UsedBy(tickets, j) ==> st[j] == store[j])
  {
    if records != [] {
      var init := records[..|records| - 1];
      BuildStep(records, store);
      BuildShape(init, store);
      var (tk0, st0) := Build(init, store).value;
      var (tickets, st) := Build(records, store).value;
      var t := BuildOne(records[|records| - 1], st0).value.0;
      BuildOneSpec(records[|records| - 1], st0);
      assert tickets == tk0 + [t];
      forall j | 0 <= j < |st| && !UsedBy(tickets, j)
        ensures st[j] == store[j]
      {
        UsedByAppend(tk0, t, j);
      }
    }
  }

  /** Ticket `t` was made from `fields` against the store as configured:
      selected there, its title the configured title rendered with its own
      record, and its description the very list the final store `st` holds
      for its template, free of `$`. */
  predicate RenderedFrom(t: Ticket, fields: Record, store: seq<Template>, st: seq<Template>) {
    && (t.template.None? ==> SelectTemplate(fields, store) == Ok(None) && t.fields == fields)
    && (t.template.Some? ==>
          var f := t.template.value;
          && SelectTemplate(fields, store) == Ok(Some(f.source))
          && f.source < |store| && f.source < |st|
          && f.title == RenderText(fields, store[f.source].title)
          && f.titleFirst == store[f.source].titleFirst
          && f.description == st[f.source].description
          && DollarFreeLines(f.description))
  }

  /** The ticket just built satisfies `RenderedFrom` against the configured
      store, because selection reads only the triggers. */
  lemma BuildOneRendered(fields: Record, store: seq<Template>, st0: seq<Template>)
    requires SameButDescriptions(st0, store) && BuildOne(fields, st0).Ok?
    ensures RenderedFrom(BuildOne(fields, st0).value.0, fields, store, BuildOne(fields, st0).value.1)
  {
    BuildOneSpec(fields, st0);
    SelectFromTriggersOnly(fields, st0, store, 0);
  }

  /** Building one more ticket leaves an earlier ticket's template entry as
      it was: either another entry changed, or the entry already held no
      `$`. */
  lemma BuildOneKeeps(t: Ticket, fields: Record, store: seq<Template>, st0: seq<Template>, last: Record)
    requires RenderedFrom(t, fields, store, st0) && BuildOne(last, st0).Ok?
    ensures RenderedFrom(t, fields, store, BuildOne(last, st0).value.1)
  {
    BuildOneSpec(last, st0);
  }

  /** Ticket `i` of the builder satisfies `RenderedFrom` against the store
      as configured and the store as it ends. */
  lemma {:induction false} BuildEach(records: seq<Record>, store: seq<Template>, i: nat)
    requires Build(records, store).Ok? && i < |records|
    ensures var (tickets, st) := Build(records, store).value;
      && |tickets| == |records| && |st| == |store|
      && RenderedFrom(tickets[i], records[i], store, st)
  {
    var init := records[..|records| - 1];
    BuildStep(records, store);
    BuildShape(init, store);
    var (tk0, st0) := Build(init, store).value;
    var last := records[|records| - 1];
    var t := BuildOne(last, st0).value.0;
    assert Build(records, store).value == (tk0 + [t], BuildOne(last, st0).value.1);
    if i < |init| {
      BuildEach(init, store, i);
      assert init[i] == records[i] && (tk0 + [t])[i] == tk0[i];
      BuildOneKeeps(tk0[i], records[i], store, st0, last);
    } else {
      BuildOneRendered(last, store, st0);
    }
  }

  /** The first ticket that uses a template renders the template's
      configured description with its own record; later tickets that use the
      same template share that rendering. */
  lemma {:induction false} BuildFirstUse(records: seq<Record>, store: seq<Template>, i: nat)
    requires Build(records, store).Ok? && i < |records|
    requires Build(records, store).value.0[i].template.Some?
    requires !UsedBy(Build(records, store).value.0[..i], Build(records, store).value.0[i].template.value.source)
    ensures var f := Build(records, store).value.0[i].template.value;
      f.source < |store| && f.description == RenderedLines(records[i], store[f.source].description)
  {
    var init := records[..|records| - 1];
    BuildStep(records, store);
    var (tk0, st0) := Build(init, store).value;
    var last := records[|records| - 1];
    var t := BuildOne(last, st0).value.0;
    assert Build(records, store).value.0 == tk0 + [t];
    if i < |init| {
      assert (tk0 + [t])[..i] == tk0[..i];
      assert init[i] == records[i] && (tk0 + [t])[i] == tk0[i];
      BuildFirstUse(init, store, i);
    } else {
      assert (tk0 + [t])[..i] == tk0;
      BuildShape(init, store);
      BuildOneFresh(last, store, tk0, st0);
    }
  }

  /** A ticket whose template no earlier ticket used renders the template's
      configured description. */
  lemma BuildOneFresh(fields: Record, store: seq<Template>, tk0: seq<Ticket>, st0: seq<Template>)
    requires BuildOne(fields, st0).Ok? && BuildOne(fields, st0).value.0.template.Some?
    requires SameButDescriptions(st0, store)
    requires forall j :: 0 <= j < |st0| && !UsedBy(tk0, j) ==> st0[j] == store[j]
    requires !UsedBy(tk0, BuildOne(fields, st0).value.0.template.value.source)
    ensures var f := BuildOne(fields, st0).value.0.template.value;
      f.source < |store| && f.description == RenderedLines(fields, store[f.source].description)
  {
    BuildOneSpec(fields, st0);
  }

  /** Rendering leaves the keys starting with `_` as they were. */
  lemma BuildOnePrivate(fields: Record, store: seq<Template>, k: string)
    requires BuildOne(fields, store).Ok? && Private(k)
    ensures Get(BuildOne(fields, store).value.0.fields, k) == Get(fields, k)
  {
    match SelectTemplate(fields, store)
    case Ok(Some(j)) =>
      RenderFieldsPerText(fields, store[j].title, store[j].description);
      GetPointwise(RenderFields(fields, store[j].title, store[j].description).fields, fields, k);
    case _ =>
  }

  /** Ticket `i` of the builder carries record `i`'s bookkeeping keys. */
  lemma {:induction false} BuildPrivate(records: seq<Record>, store: seq<Template>, i: nat, k: string)
    requires Build(records, store).Ok? && i < |records| && Private(k)
    ensures Get(Build(records, store).value.0[i].fields, k) == Get(records[i], k)
  {
    var init := records[..|records| - 1];
    BuildStep(records, store);
    var (tk0, st0) := Build(init, store).value;
    var last := records[|records| - 1];
    var t := BuildOne(last, st0).value.0;
    assert Build(records, store).value.0 == tk0 + [t];
    if i < |init| {
      BuildPrivate(init, store, i, k);
      assert init[i] == records[i] && (tk0 + [t])[i] == tk0[i];
    } else {
      BuildOnePrivate(last, st0, k);
    }
  }

  /** Ticket `i` of the builder keeps record `i`'s keys in order and every
      value's text. */
  lemma {:induction false} BuildFields(records: seq<Record>, store: seq<Template>, i: nat)
    requires Build(records, store).Ok? && i < |records|
    ensures var t := Build(records, store).value.0[i];
      && |t.fields| == |records[i]|
      && forall k :: 0 <= k < |records[i]| ==> t.fields[k].0 == records[i][k].0 && Text(t.fields[k].1) == Text(records[i][k].1)
  {
    var init := records[..|records| - 1];
    BuildStep(records, store);
    var (tk0, st0) := Build(init, store).value;
    var last := records[|records| - 1];
    var t := BuildOne(last, st0).value.0;
    assert Build(records, store).value.0 == tk0 + [t];
    if i < |init| {
      BuildFields(init, store, i);
      assert init[i] == records[i] && (tk0 + [t])[i] == tk0[i];
    } else {
      BuildOneFields(last, st0);
    }
  }

  // ----- the whole stage, failures included -----

  /** The ticket records of the first pass, in alarm order. */
  function FieldsOf(prepared: seq<(Alarm, Record)>): (records: seq<Record>)
    ensures |records| == |prepared|
  {
    seq(|prepared|, k requires 0 <= k < |prepared| => prepared[k].1)
  }

  function PoppedOf(prepared: (Alarm, Record)): Alarm {
    prepared.0
  }

  /** The alarm list after the first pass: every alarm up to the first one
      that raises has had its last sensor popped, the rest are untouched. */
  function PoppedUpTo(alarms: seq<Alarm>, sensors: map<string, string>): seq<Alarm> {
    UpdatedUpTo(alarms, Preparer(sensors), PoppedOf)
  }

  /** One more alarm handled by the first pass. */
  lemma PreparedOneMore(alarms: seq<Alarm>, sensors: map<string, string>, i: nat)
    requires i < |alarms| && PrepareAll(alarms[..i], sensors).Ok? && Prepare(alarms[i], sensors).Ok?
    ensures PrepareAll(alarms[..i + 1], sensors) == Ok(PrepareAll(alarms[..i], sensors).value + [Prepare(alarms[i], sensors).value])
    ensures PoppedUpTo(alarms[..i + 1], sensors) == PoppedUpTo(alarms[..i], sensors) + [Prepare(alarms[i], sensors).value.0]
  {
    assert alarms[..i + 1][..i] == alarms[..i];
    UpdatedStep(alarms, Preparer(sensors), PoppedOf, i);
  }

  /** The first pass stopped at alarm `i`: it fails with that alarm's fault
      and leaves the alarms from `i` on untouched. */
  lemma PreparedFault(alarms: seq<Alarm>, sensors: map<string, string>, i: nat)
    requires i < |alarms| && PrepareAll(alarms[..i], sensors).Ok? && Prepare(alarms[i], sensors).Err?
    ensures PrepareAll(alarms, sensors) == Err(Prepare(alarms[i], sensors).error)
  {
    assert alarms[..i + 1][..i] == alarms[..i];
    TraverseErrPrefix(alarms, Preparer(sensors), i + 1);
  }

  lemma PoppedUpToFault(alarms: seq<Alarm>, sensors: map<string, string>, i: nat)
    requires i < |alarms| && PrepareAll(alarms[..i], sensors).Ok? && Prepare(alarms[i], sensors).Err?
    ensures PoppedUpTo(alarms, sensors) == PoppedUpTo(alarms[..i], sensors) + alarms[i..]
  {
    UpdatedAfterFault(alarms, Preparer(sensors), PoppedOf, i);
  }

  /** After a successful first pass every alarm has been popped in place:
      alarm `i` is the popped alarm its preparation gives. */
  lemma PoppedUpToAll(alarms: seq<Alarm>, sensors: map<string, string>, i: nat)
    requires PrepareAll(alarms, sensors).Ok? && i < |alarms|
    ensures PoppedUpTo(alarms, sensors)[i] == PrepareAll(alarms, sensors).value[i].0
  {
    UpdatedAll(alarms, Preparer(sensors), PoppedOf, i);
  }

  /** The template store after the second pass over `records`: as the
      builder leaves it, or as it was when a selection raised. */
  function StoreAfter(records: seq<Record>, store: seq<Template>): seq<Template> {
    if records == [] then store
    else
      var init := records[..|records| - 1];
      match Build(init, store)
      case Err(_) => StoreAfter(init, store)
      case Ok((_, st)) =>
        match BuildOne(records[|records| - 1], st)
        case Err(_) => st
        case Ok((_, st')) => st'
  }

  lemma {:induction false} StoreAfterErrPrefix(records: seq<Record>, store: seq<Template>, k: nat)
    requires k <= |records| && Build(records[..k], store).Err?
    ensures StoreAfter(records, store) == StoreAfter(records[..k], store)
    decreases |records| - k
  {
    if k < |records| {
      assert records[..k + 1][..k] == records[..k];
      BuildErrPrefix(records[..k + 1], store, k);
      StoreAfterErrPrefix(records, store, k + 1);
    } else {
      assert records[..k] == records;
    }
  }

  /** The second pass as a whole: its result, and the template store it
      leaves behind. */
  function BuildRun(records: seq<Record>, store: seq<Template>): (Result<seq<Ticket>, Fault>, seq<Template>) {
    (match Build(records, store)
     case Ok((tickets, _)) => Ok(tickets)
     case Err(e) => Err(e),
     StoreAfter(records, store))
  }

  /** `tickets_from_alarms` as a whole: its result, and the template store it
      leaves behind. */
  function TicketsRun(alarms: seq<Alarm>, sensors: map<string, string>, store: seq<Template>): (Result<seq<Ticket>, Fault>, seq<Template>) {
    match PrepareAll(alarms, sensors)
    case Err(e) => (Err(e), store)
    case Ok(prepared) => BuildRun(FieldsOf(prepared), store)
  }

  /** The second pass stopped at record `n`. */
  lemma BuildRunFault(records: seq<Record>, store: seq<Template>, n: nat)
    requires n < |records| && Build(records[..n], store).Ok?
    requires BuildOne(records[n], Build(records[..n], store).value.1).Err?
    ensures BuildRun(records, store) ==
      (Err(BuildOne(records[n], Build(records[..n], store).value.1).error), Build(records[..n], store).value.1)
  {
    assert records[..n + 1][..n] == records[..n];
    StoreAfterErrPrefix(records, store, n + 1);
    BuildErrPrefix(records, store, n + 1);
  }

  /** One more record handled by the second pass. */
  lemma BuildOneMore(records: seq<Record>, store: seq<Template>, n: nat)
    requires n < |records| && Build(records[..n], store).Ok?
    requires BuildOne(records[n], Build(records[..n], store).value.1).Ok?
    ensures var (tickets, st) := Build(records[..n], store).value;
      Build(records[..n + 1], store) == Ok((tickets + [BuildOne(records[n], st).value.0], BuildOne(records[n], st).value.1))
  {
    assert records[..n + 1][..n] == records[..n];
  }

  /** A successful second pass returns the builder's tickets and leaves the
      store the builder computes. */
  lemma BuildRunOk(records: seq<Record>, store: seq<Template>)
    requires Build(records, store).Ok?
    ensures BuildRun(records, store) == (Ok(Build(records, store).value.0), Build(records, store).value.1)
  {
    if records != [] {
      BuildStep(records, store);
    }
  }

  /** Ticket `i` of the stage carries alarm `i`'s uuid under `_uuid`, when the
      alarm has no `_uuid` field of its own (`ticket.update(alarm)` would
      overwrite it). */
  lemma TicketUuid(alarms: seq<Alarm>, sensors: map<string, string>, store: seq<Template>, i: nat)
    requires TicketsRun(alarms, sensors, store).0.Ok? && i < |alarms|
    requires Keyed(alarms[i]) && "_uuid" !in Keys(alarms[i])
    ensures |TicketsRun(alarms, sensors, store).0.value| == |alarms|
    ensures Get(TicketsRun(alarms, sensors, store).0.value[i].fields, "_uuid") == Get(alarms[i], "uuid")
  {
    var prepared := PrepareAll(alarms, sensors).value;
    var records := FieldsOf(prepared);
    BuildRunOk(records, store);
    PrepareAllEach(alarms, sensors, i);
    assert records[i] == Prepare(alarms[i], sensors).value.1;
    PreparedUuid(alarms[i], sensors);
    BuildPrivate(records, store, i, "_uuid");
  }

  /** With no templates configured, a ticket keeps its record and gets no
      template. */
  lemma BuildNoTemplates(fields: Record)
    ensures Build([fields], []) == Ok(([Ticket(fields, None)], []))
  {
    var records := [fields];
    assert records[..|records| - 1] == [] && records[|records| - 1] == fields;
    assert Build(records[..|records| - 1], []) == Ok(([], []));
    assert SelectTemplate(fields, []) == Ok(None);
    assert BuildOne(fields, []) == Ok((Ticket(fields, None), []));
    assert [] + [Ticket(fields, None)] == [Ticket(fields, None)];
  }

  /** With one template that selects the record, the ticket gets that
      template. */
  lemma BuildOneTemplate(fields: Record, t: Template)
    requires Selects(fields, t) == Ok(true)
    ensures Build([fields], [t]).Ok?
    ensures |Build([fields], [t]).value.0| == 1 && Build([fields], [t]).value.0[0].template.Some?
  {
    var records := [fields];
    assert records[..|records| - 1] == [] && records[|records| - 1] == fields;
    assert Build(records[..|records| - 1], [t]) == Ok(([], [t]));
    assert SelectTemplate(fields, [t]) == Ok(Some(0));
    var b := BuildOne(fields, [t]);
    assert b.Ok? && b.value.0.template.Some?;
    assert Build(records, [t]) == Ok(([] + [b.value.0], b.value.1));
  }

  /** For one alarm that can be prepared, the stage is the second pass over
      its record. */
  lemma OneAlarmStage(alarm: Alarm, sensors: map<string, string>, store: seq<Template>)
    requires Preparable(alarm)
    ensures TicketsRun([alarm], sensors, store) == BuildRun([Prepare(alarm, sensors).value.1], store)
  {
    var p := Prepare(alarm, sensors).value;
    TraverseOne(alarm, Preparer(sensors));
    assert FieldsOf([p]) == [p.1];
  }

  /** One alarm that can be prepared, and no templates: the stage yields one
      ticket, the alarm's record, with no template. */
  lemma OneAlarmRun(alarm: Alarm, sensors: map<string, string>)
    requires Preparable(alarm)
    ensures TicketsRun([alarm], sensors, []).0 == Ok([Ticket(Prepare(alarm, sensors).value.1, None)])
  {
    var fields := Prepare(alarm, sensors).value.1;
    OneAlarmStage(alarm, sensors, []);
    BuildNoTemplates(fields);
    BuildRunOk([fields], []);
  }

  /** One alarm whose `rule_strategy` a template lists: the stage yields one
      ticket, rendered from that template. */
  lemma OneAlarmSelected(alarm: Alarm, sensors: map<string, string>, t: Template)
    requires Keyed(alarm) && Preparable(alarm)
    requires Get(alarm, "rule_strategy").Some?
    requires In(Get(alarm, "rule_strategy").value, "rule_strategy", t.triggers) == Ok(true)
    ensures TicketsRun([alarm], sensors, [t]).0.Ok?
    ensures |TicketsRun([alarm], sensors, [t]).0.value| == 1
    ensures TicketsRun([alarm], sensors, [t]).0.value[0].template.Some?
  {
    var fields := Prepare(alarm, sensors).value.1;
    OneAlarmStage(alarm, sensors, [t]);
    PreparedKeeps(alarm, sensors, "rule_strategy");
    BuildOneTemplate(fields, t);
    BuildRunOk([fields], [t]);
  }

  /** An alarm as the platform sends it, with one sensor, the given uuid and
      the given rule strategy. */
  function ExampleAlarm(uuid: string, rule: string): Alarm {
    [("uuid", Str(uuid)), ("timestamp_occured_iso8601", Str("2024-05-06T07:08:09Z")),
     ("priority_label", Str("high")), (SensorSources, Strs(["s1"])), ("rule_strategy", Str(rule))]
  }

  /** The example alarm's keys, each once. */
  lemma ExampleAlarmKeyed(uuid: string, rule: string)
    ensures Keys(ExampleAlarm(uuid, rule)) == ["uuid", "timestamp_occured_iso8601", "priority_label", SensorSources, "rule_strategy"]
    ensures Keyed(ExampleAlarm(uuid, rule))
  {
    KeysAre(ExampleAlarm(uuid, rule));
  }

  /** The example alarm meets what the first pass and `TicketUuid` ask. */
  lemma ExampleAlarmReady(uuid: string, rule: string)
    ensures var a := ExampleAlarm(uuid, rule);
      && Keyed(a) && "_uuid" !in Keys(a) && Preparable(a)
      && Get(a, "uuid") == Some(Str(uuid))
      && Get(a, "rule_strategy") == Some(Str(rule))
  {
    var a := ExampleAlarm(uuid, rule);
    ExampleAlarmKeyed(uuid, rule);
    GetAt(a, 0);
    GetAt(a, 1);
    GetAt(a, 2);
    GetAt(a, 3);
    GetAt(a, 4);
  }

  /** For an example alarm and no templates the whole stage succeeds, and
      its one ticket carries the alarm's uuid. */
  lemma OneAlarmUuid(uuid: string, rule: string)
    ensures TicketsRun([ExampleAlarm(uuid, rule)], map[], []).0.Ok?
    ensures Get(TicketsRun([ExampleAlarm(uuid, rule)], map[], []).0.value[0].fields, "_uuid") == Some(Str(uuid))
  {
    ExampleAlarmReady(uuid, rule);
    OneAlarmRun(ExampleAlarm(uuid, rule), map[]);
    TicketUuid([ExampleAlarm(uuid, rule)], map[], [], 0);
  }
}
