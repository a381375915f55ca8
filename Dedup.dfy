/** The duplicate filter `filter_duplicate_tickets`
    (usm2jira/__script__.py:386-407) and the fingerprint the publisher
    records on every issue it creates (usm2jira/__script__.py:490-497). */
module Dedup {
  import opened Wrappers
  import opened Records
  import opened Templates
  import opened Tickets
  import opened Alarms

  /** The part of a ticket's template that is fingerprinted: the `title` and
      `description` entries, in the order the template lists them. */
  datatype Content = Content(titleFirst: bool, title: string, description: seq<string>)

  function ContentOf(f: Filled): Content {
    Content(f.titleFirst, f.title, f.description)
  }

  function PostedMd5s(issues: seq<Issue>): seq<string> {
    PropertyValues(issues, "alarm-md5")
  }

  /** The ticket's fingerprint is already recorded on an issue. */
  predicate Duplicate(t: Ticket, md5s: seq<string>, digest: Content -> string) {
    t.template.Some? && digest(ContentOf(t.template.value)) in md5s
  }

  /** Lines 393-399: the loop over the tickets, in order; a ticket without a
      template stops it with a `KeyError`. */
  function Prune(tickets: seq<Ticket>, md5s: seq<string>, digest: Content -> string): Result<seq<Ticket>, Fault> {
    if tickets == [] then Ok([])
    else
      var last := tickets[|tickets| - 1];
      match Prune(tickets[..|tickets| - 1], md5s, digest)
      case Err(e) => Err(e)
      case Ok(kept) =>
        if last.template.None? then Err(MissingKey("template"))
        else Ok(if Duplicate(last, md5s, digest) then kept else kept + [last])
  }

  /** The whole stage: an empty result ends the run with `exit(0)`. */
  function DedupStep(issues: seq<Issue>, tickets: seq<Ticket>, digest: Content -> string): Step<Ticket> {
    match Prune(tickets, PostedMd5s(issues), digest)
    case Err(e) => Abort(e)
    case Ok(kept) => if kept == [] then Exit else Continue(kept)
  }

  /** Lines 386-407, the loop written out. */
  method FilterDuplicateTickets(issues: seq<Issue>, tickets: seq<Ticket>, digest: Content -> string) returns (r: Step<Ticket>)
    ensures r == DedupStep(issues, tickets, digest)
  {
    var filtered: seq<Ticket> := [];
    var postedMd5s := PostedMd5s(issues);
    var i := 0;
    while i < |tickets|
      invariant 0 <= i <= |tickets|
      invariant Prune(tickets[..i], postedMd5s, digest) == Ok(filtered)
    {
      assert tickets[..i + 1][..i] == tickets[..i];
      var ticket := tickets[i];
      if ticket.template.None? {
        PruneErrPrefix(tickets, postedMd5s, digest, i + 1);
        return Abort(MissingKey("template"));
      }
      var templateHash := digest(ContentOf(ticket.template.value));
      if templateHash !in postedMd5s {
        filtered := filtered + [ticket];
      }
      i := i + 1;
    }
    assert tickets[..i] == tickets;
    if filtered == [] {
      return Exit;
    }
    return Continue(filtered);
  }

  lemma {:induction false} PruneErrPrefix(tickets: seq<Ticket>, md5s: seq<string>, digest: Content -> string, k: nat)
    requires k <= |tickets| && Prune(tickets[..k], md5s, digest).Err?
    ensures Prune(tickets, md5s, digest) == Prune(tickets[..k], md5s, digest)
    decreases |tickets| - k
  {
    if k < |tickets| {
      assert tickets[..k + 1][..k] == tickets[..k];
      PruneErrPrefix(tickets, md5s, digest, k + 1);
    } else {
      assert tickets[..k] == tickets;
    }
  }

  /** The stage fails exactly when some ticket has no template. */
  lemma {:induction false} PruneFails(tickets: seq<Ticket>, md5s: seq<string>, digest: Content -> string)
    ensures Prune(tickets, md5s, digest).Err? <==> exists i :: 0 <= i < |tickets| && tickets[i].template.None?
    ensures Prune(tickets, md5s, digest).Err? ==> Prune(tickets, md5s, digest).error == MissingKey("template")
  {
    if tickets != [] {
      var init := tickets[..|tickets| - 1];
      PruneFails(init, md5s, digest);
      assert forall i :: 0 <= i < |init| ==> init[i] == tickets[i];
    }
  }

  /** Which tickets survive, one flag per ticket. */
  function FreshFlags(tickets: seq<Ticket>, md5s: seq<string>, digest: Content -> string): (flags: seq<bool>)
    ensures |flags| == |tickets|
  {
    seq(|tickets|, i requires 0 <= i < |tickets| => !Duplicate(tickets[i], md5s, digest))
  }

  lemma {:induction false} PruneIsKeepFlagged(tickets: seq<Ticket>, md5s: seq<string>, digest: Content -> string)
    requires Prune(tickets, md5s, digest).Ok?
    ensures Prune(tickets, md5s, digest).value == KeepFlagged(tickets, FreshFlags(tickets, md5s, digest))
  {
    if tickets != [] {
      var init := tickets[..|tickets| - 1];
      PruneIsKeepFlagged(init, md5s, digest);
      assert FreshFlags(tickets, md5s, digest)[..|tickets| - 1] == FreshFlags(init, md5s, digest);
    }
  }

  /** The filter keeps exactly the tickets whose fingerprint is not
      recorded, in their original order. */
  lemma PruneKeepsInOrder(tickets: seq<Ticket>, md5s: seq<string>, digest: Content -> string)
    requires Prune(tickets, md5s, digest).Ok?
    ensures exists idx :: (PickedAt(tickets, Prune(tickets, md5s, digest).value, idx) &&
      forall i :: 0 <= i < |tickets| ==> (i in idx <==> !Duplicate(tickets[i], md5s, digest)))
  {
    var flags := FreshFlags(tickets, md5s, digest);
    PruneIsKeepFlagged(tickets, md5s, digest);
    KeepFlaggedPicks(tickets, flags);
    FlaggedAtMembers(flags);
    assert PickedAt(tickets, Prune(tickets, md5s, digest).value, FlaggedAt(flags));
  }

  /** Pruning what was already pruned changes nothing. */
  lemma {:induction false} PruneIdempotent(tickets: seq<Ticket>, md5s: seq<string>, digest: Content -> string)
    requires Prune(tickets, md5s, digest).Ok?
    ensures Prune(Prune(tickets, md5s, digest).value, md5s, digest) == Prune(tickets, md5s, digest)
  {
    if tickets != [] {
      var init, last := tickets[..|tickets| - 1], tickets[|tickets| - 1];
      PruneIdempotent(init, md5s, digest);
      var kept := Prune(init, md5s, digest).value;
      if !Duplicate(last, md5s, digest) {
        assert (kept + [last])[..|kept|] == kept;
      }
    }
  }

  /** Lines 490-497: the properties stored on a newly created issue, the
      ticket's uuid (when it is text) and its fingerprint. */
  function Recorded(t: Ticket, digest: Content -> string): (issue: Issue)
    requires t.template.Some?
    ensures "alarm-md5" in issue.properties && issue.properties["alarm-md5"] == digest(ContentOf(t.template.value))
    ensures "alarm-uuid" in issue.properties <==> Get(t.fields, "_uuid").Some? && Get(t.fields, "_uuid").value.Str?
    ensures "alarm-uuid" in issue.properties ==> Get(t.fields, "_uuid") == Some(Str(issue.properties["alarm-uuid"]))
  {
    var md5 := map["alarm-md5" := digest(ContentOf(t.template.value))];
    match Get(t.fields, "_uuid")
    case Some(Str(u)) => Issue(md5["alarm-uuid" := u])
    case _ => Issue(md5)
  }

  /** Once a ticket's issue exists, the next run's duplicate filter drops
      every ticket with the same fingerprint, as long as the digest is not
      empty (an MD5 hex digest never is). */
  lemma RecordedIsDuplicate(t: Ticket, digest: Content -> string, issues: seq<Issue>, i: nat, t': Ticket)
    requires t.template.Some? && i < |issues| && issues[i] == Recorded(t, digest)
    requires digest(ContentOf(t.template.value)) != ""
    requires t'.template.Some? && ContentOf(t'.template.value) == ContentOf(t.template.value)
    ensures Duplicate(t', PostedMd5s(issues), digest)
  {
    assert HasProperty(issues[i], "alarm-md5");
  }

  /** Once a ticket's issue exists, the next run's alarm filter drops the
      alarm it came from. */
  lemma RecordedIsPosted(t: Ticket, digest: Content -> string, issues: seq<Issue>, i: nat, u: string, alarm: Alarm, templates: seq<Template>)
    requires t.template.Some? && i < |issues| && issues[i] == Recorded(t, digest)
    requires Get(t.fields, "_uuid") == Some(Str(u)) && u != "" && Get(alarm, "uuid") == Some(Str(u))
    ensures !Keeps(alarm, PostedUuids(issues), templates)
  {
    assert HasProperty(issues[i], "alarm-uuid");
  }

  /** End to end: once the ticket the builder made from alarm `i` is
      recorded on an issue, the next run's alarm filter drops that alarm. */
  lemma BuiltTicketRecordedIsPosted(alarms: seq<Alarm>, sensors: map<string, string>, store: seq<Template>, i: nat,
                                    digest: Content -> string, issues: seq<Issue>, j: nat, templates: seq<Template>)
    requires TicketsRun(alarms, sensors, store).0.Ok?
    requires i < |alarms| && i < |TicketsRun(alarms, sensors, store).0.value|
    requires Keyed(alarms[i]) && "_uuid" !in Keys(alarms[i])
    requires Get(alarms[i], "uuid").Some? && Get(alarms[i], "uuid").value.Str? && Get(alarms[i], "uuid").value.s != ""
    requires TicketsRun(alarms, sensors, store).0.value[i].template.Some?
    requires j < |issues| && issues[j] == Recorded(TicketsRun(alarms, sensors, store).0.value[i], digest)
    ensures !Keeps(alarms[i], PostedUuids(issues), templates)
  {
    TicketUuid(alarms, sensors, store, i);
    var t := TicketsRun(alarms, sensors, store).0.value[i];
    RecordedIsPosted(t, digest, issues, j, Get(alarms[i], "uuid").value.s, alarms[i], templates);
  }

  /** A template whose triggers list the rule strategy `Network Scan`. */
  const ExampleTemplate := Template(Names(["Network Scan"]), "Alarm $uuid", ["Seen on $SensorName"], true)

  /** End to end on an example: the builder renders an alarm's ticket from
      the example template, and once that ticket is recorded on an issue, the
      next run's filter drops the alarm although its template still fires. */
  lemma ExampleRecordedIsPosted(uuid: string, digest: Content -> string)
    requires uuid != ""
    ensures var alarm := ExampleAlarm(uuid, "Network Scan");
      var run := TicketsRun([alarm], map[], [ExampleTemplate]).0;
      && run.Ok? && |run.value| == 1 && run.value[0].template.Some?
      && Fires(alarm, ExampleTemplate)
      && !Keeps(alarm, PostedUuids([Recorded(run.value[0], digest)]), [ExampleTemplate])
  {
    var alarm := ExampleAlarm(uuid, "Network Scan");
    ExampleAlarmReady(uuid, "Network Scan");
    assert In(Str("Network Scan"), "rule_strategy", ExampleTemplate.triggers) == Ok(true);
    OneAlarmSelected(alarm, map[], ExampleTemplate);
    var ticket := TicketsRun([alarm], map[], [ExampleTemplate]).0.value[0];
    BuiltTicketRecordedIsPosted([alarm], map[], [ExampleTemplate], 0, digest, [Recorded(ticket, digest)], 0, [ExampleTemplate]);
  }
}
