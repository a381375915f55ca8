/** The `usm` section of the configuration and the two stages that read it:
    the alarm filter (usm2jira/__script__.py:281-320) and the ticket builder
    (usm2jira/__script__.py:323-383). The builder renders through shallow
    copies of the configured templates, so it rewrites the configured
    description lists in place: `templates` is state. */
module Pipeline {
  import opened Wrappers
  import opened Strings
  import opened Records
  import opened Templates
  import opened Placeholders
  import opened Rendering
  import opened Traversal
  import opened Tickets
  import opened Alarms

  class Usm {
    /** `usm['templates']`, in configured order (empty when not configured). */
    var templates: seq<Template>
    /** `usm['sensors']`: display names by sensor id. */
    const sensors: map<string, string>

    constructor (templates: seq<Template>, sensors: map<string, string>)
      ensures this.templates == templates && this.sensors == sensors
    {
      this.templates := templates;
      this.sensors := sensors;
    }

    /** Lines 300-303: every pair of a mapping of triggers is tested; a
        field that is present but not text raises. */
    static method MatchPairs(alarm: Alarm, pairs: seq<(string, string)>) returns (r: Result<bool, Fault>)
      ensures r == PatternsFire(alarm, pairs)
    {
      var isTriggered := false;
      var k := 0;
      while k < |pairs|
        invariant 0 <= k <= |pairs|
        invariant PatternsFire(alarm, pairs[..k]) == Ok(isTriggered)
      {
        assert pairs[..k + 1][..k] == pairs[..k];
        var (key, value) := pairs[k];
        match Get(alarm, key) {
          case None =>
          case Some(Str(s)) =>
            if Contains(Lower(s), Lower(StripStars(value))) {
              isTriggered := true;
            }
          case Some(_) =>
            PatternsFireErrPrefix(alarm, pairs, k + 1);
            return Err(WrongType(key));
        }
        k := k + 1;
      }
      assert pairs[..k] == pairs;
      return Ok(isTriggered);
    }

    /** Lines 296-309: every template is tested, even after one has fired. */
    method Triggered(alarm: Alarm) returns (r: Result<bool, Fault>)
      ensures r == AnyFires(alarm, templates)
    {
      var isTriggered := false;
      var j := 0;
      while j < |templates|
        invariant 0 <= j <= |templates|
        invariant AnyFires(alarm, templates[..j]) == Ok(isTriggered)
      {
        assert templates[..j + 1][..j] == templates[..j];
        match templates[j].triggers {
          case Patterns(pairs) =>
            var fired := MatchPairs(alarm, pairs);
            if fired.Err? {
              AnyFiresErrPrefix(alarm, templates, j + 1);
              return Err(fired.error);
            }
            isTriggered := isTriggered || fired.value;
          case Names(names) =>
            if NameListed(alarm, "rule_strategy", names) || NameListed(alarm, "rule_method", names) {
              isTriggered := true;
            }
          case Absent =>
        }
        j := j + 1;
      }
      assert templates[..j] == templates;
      return Ok(isTriggered);
    }

    /** Lines 281-320. */
    method FilterAlarms(alarms: seq<Alarm>, issues: seq<Issue>) returns (r: Step<Alarm>)
      ensures r == FilterStep(alarms, issues, templates)
    {
      if templates == [] {
        return Continue([]);
      }
      var filtered: seq<Alarm> := [];
      var postedUuids := PostedUuids(issues);
      var i := 0;
      while i < |alarms|
        invariant 0 <= i <= |alarms|
        invariant Screen(alarms[..i], postedUuids, templates) == Ok(filtered)
      {
        assert alarms[..i + 1][..i] == alarms[..i];
        var alarm := alarms[i];
        if Get(alarm, "uuid").None? {
          ScreenErrPrefix(alarms, postedUuids, templates, i + 1);
          return Abort(MissingKey("uuid"));
        }
        if !Posted(Get(alarm, "uuid").value, postedUuids) {
          var isTriggered := Triggered(alarm);
          if isTriggered.Err? {
            ScreenErrPrefix(alarms, postedUuids, templates, i + 1);
            return Abort(isTriggered.error);
          }
          if isTriggered.value {
            filtered := filtered + [alarm];
          }
        }
        i := i + 1;
      }
      assert alarms[..i] == alarms;
      if filtered == [] {
        return Exit;
      }
      return Continue(filtered);
    }

    /** Lines 348-352 for one ticket: the first template whose triggers
        contain the ticket's rule, scanning in configured order. */
    method SelectFor(fields: Record) returns (r: Result<Option<nat>, Fault>)
      ensures r == SelectTemplate(fields, templates)
    {
      var j := 0;
      while j < |templates|
        invariant 0 <= j <= |templates|
        invariant SelectTemplate(fields, templates) == SelectFrom(fields, templates, j)
      {
        var s := Selects(fields, templates[j]);
        if s.Err? {
          return Err(s.error);
        }
        if s.value {
          return Ok(Some(j));
        }
        j := j + 1;
      }
      return Ok(None);
    }

    /** Lines 328-344: the first pass, popping each alarm's last sensor in
        place. */
    method PrepareAlarms(alarms: array<Alarm>) returns (r: Result<seq<(Alarm, Record)>, Fault>)
      modifies alarms
      ensures alarms[..] == PoppedUpTo(old(alarms[..]), sensors)
      ensures r == PrepareAll(old(alarms[..]), sensors)
    {
      ghost var original := alarms[..];
      ghost var popped: seq<Alarm> := [];
      var prepared: seq<(Alarm, Record)> := [];
      var i := 0;
      while i < alarms.Length
        invariant 0 <= i <= alarms.Length
        invariant PrepareAll(original[..i], sensors) == Ok(prepared)
        invariant popped == PoppedUpTo(original[..i], sensors)
        invariant alarms[..] == popped + original[i..]
      {
        assert original[i] == alarms[i];
        var ticket := Prepare(alarms[i], sensors);
        if ticket.Err? {
          PreparedFault(original, sensors, i);
          PoppedUpToFault(original, sensors, i);
          return Err(ticket.error);
        }
        ghost var before := alarms[..];
        alarms[i] := ticket.value.0;
        assert alarms[..] == before[i := ticket.value.0];
        prepared := prepared + [ticket.value];
        PreparedOneMore(original, sensors, i);
        WriteAtSeam(popped, original[i..], ticket.value.0);
        assert original[i..][1..] == original[i + 1..];
        popped := popped + [ticket.value.0];
        i := i + 1;
      }
      assert original[..i] == original;
      return Ok(prepared);
    }

    /** Lines 347-382 for one ticket: select, render the title on the copy
        and the description in the shared list, then replace what is left
        of the placeholders. */
    method BuildTicket(fields: Record) returns (r: Result<Ticket, Fault>)
      modifies this
      ensures BuildOne(fields, old(templates)).Err? ==> r.Err? && r.error == BuildOne(fields, old(templates)).error && templates == old(templates)
      ensures BuildOne(fields, old(templates)).Ok? ==> r == Ok(BuildOne(fields, old(templates)).value.0) && templates == BuildOne(fields, old(templates)).value.1
    {
      var selected := SelectFor(fields);
      if selected.Err? {
        return Err(selected.error);
      }
      if selected.value.None? {
        return Ok(Ticket(fields, None));
      }
      var j := selected.value.value;
      var template := templates[j];
      var d := RenderKeys(fields, template.title, template.description);
      var lines := ReplaceUnresolved(d.description);
      templates := templates[j := template.(description := lines)];
      return Ok(Ticket(d.fields, Some(Filled(j, template.titleFirst, d.title, lines))));
    }

    /** Lines 346-383: the second pass, one ticket after the other. */
    method RenderTickets(records: seq<Record>) returns (r: Result<seq<Ticket>, Fault>)
      modifies this
      ensures (r, templates) == BuildRun(records, old(templates))
    {
      ghost var store := templates;
      var tickets: seq<Ticket> := [];
      var n := 0;
      while n < |records|
        invariant 0 <= n <= |records|
        invariant Build(records[..n], store) == Ok((tickets, templates))
      {
        var ticket := BuildTicket(records[n]);
        if ticket.Err? {
          BuildRunFault(records, store, n);
          return Err(ticket.error);
        }
        BuildOneMore(records, store, n);
        tickets := tickets + [ticket.value];
        n := n + 1;
      }
      assert records[..n] == records;
      BuildRunOk(records, store);
      return Ok(tickets);
    }

    /** Lines 323-383: the first pass pops each alarm's last sensor in place
        and builds the ticket records; the second renders each ticket,
        rewriting the description of the template it uses. */
    method TicketsFromAlarms(alarms: array<Alarm>) returns (r: Result<seq<Ticket>, Fault>)
      modifies this, alarms
      ensures alarms[..] == PoppedUpTo(old(alarms[..]), sensors)
      ensures (r, templates) == TicketsRun(old(alarms[..]), sensors, old(templates))
    {
      var prepared := PrepareAlarms(alarms);
      if prepared.Err? {
        return Err(prepared.error);
      }
      r := RenderTickets(FieldsOf(prepared.value));
    }
  }
}
