/** The alarm filter `filter_alarms` (usm2jira/__script__.py:281-320): an
    alarm goes on to become a ticket when it has not been posted before and
    some template's triggers fire for it. */
module Alarms {
  import opened Wrappers
  import opened Records
  import opened Templates

  /** `issue.get('properties', {}).get(key)` is truthy. */
  predicate HasProperty(issue: Issue, key: string) {
    key in issue.properties && issue.properties[key] != ""
  }

  /** Lines 290-291 (and 390-391 for `alarm-md5`): the values of `key` on
      the issues that carry a non-empty one, in issue order. */
  function PropertyValues(issues: seq<Issue>, key: string): (vs: seq<string>)
    ensures |vs| <= |issues|
    ensures forall v :: v in vs <==> exists i :: 0 <= i < |issues| && HasProperty(issues[i], key) && issues[i].properties[key] == v
  {
    if issues == [] then []
    else
      var init, last := issues[..|issues| - 1], issues[|issues| - 1];
      assert forall i :: 0 <= i < |init| ==> init[i] == issues[i];
      PropertyValues(init, key) + if HasProperty(last, key) then [last.properties[key]] else []
  }

  function PostedUuids(issues: seq<Issue>): seq<string> {
    PropertyValues(issues, "alarm-uuid")
  }

  /** `alarm['uuid'] in posted_uuids`: only a text uuid can equal a stored one. */
  predicate Posted(uuid: Value, posted: seq<string>) {
    uuid.Str? && uuid.s in posted
  }

  /** The alarm is kept: it has a uuid that no issue records, and some
      template's triggers fire for it. */
  predicate Keeps(alarm: Alarm, posted: seq<string>, templates: seq<Template>) {
    && Get(alarm, "uuid").Some?
    && !Posted(Get(alarm, "uuid").value, posted)
    && !(exists j :: 0 <= j < |templates| && Breaks(alarm, templates[j]))
    && exists j :: 0 <= j < |templates| && Fires(alarm, templates[j])
  }

  /** Looking at the alarm raises: it has no uuid, or it was not posted and
      some template's pattern names a field that is not text. */
  predicate Raises(alarm: Alarm, posted: seq<string>, templates: seq<Template>) {
    || Get(alarm, "uuid").None?
    || (!Posted(Get(alarm, "uuid").value, posted) && exists j :: 0 <= j < |templates| && Breaks(alarm, templates[j]))
  }

  /** Lines 293-311 for one alarm: whether it is kept, or the fault looking
      at it raises. */
  function Inspect(alarm: Alarm, posted: seq<string>, templates: seq<Template>): (r: Result<bool, Fault>)
    ensures r.Err? <==> Raises(alarm, posted, templates)
    ensures r.Ok? ==> (r.value <==> Keeps(alarm, posted, templates))
  {
    match Get(alarm, "uuid")
    case None => Err(MissingKey("uuid"))
    case Some(uuid) =>
      if Posted(uuid, posted) then Ok(false)
      else
        AnyFiresMeaning(alarm, templates);
        AnyFires(alarm, templates)
  }

  /** Lines 292-312: the loop over the alarms, in order, stopping at the
      first alarm that raises. */
  function Screen(alarms: seq<Alarm>, posted: seq<string>, templates: seq<Template>): Result<seq<Alarm>, Fault> {
    if alarms == [] then Ok([])
    else
      match Screen(alarms[..|alarms| - 1], posted, templates)
      case Err(e) => Err(e)
      case Ok(kept) =>
        match Inspect(alarms[|alarms| - 1], posted, templates)
        case Err(e) => Err(e)
        case Ok(b) => Ok(if b then kept + [alarms[|alarms| - 1]] else kept)
  }

  lemma {:induction false} ScreenErrPrefix(alarms: seq<Alarm>, posted: seq<string>, templates: seq<Template>, k: nat)
    requires k <= |alarms| && Screen(alarms[..k], posted, templates).Err?
    ensures Screen(alarms, posted, templates) == Screen(alarms[..k], posted, templates)
    decreases |alarms| - k
  {
    if k < |alarms| {
      assert alarms[..k + 1][..k] == alarms[..k];
      ScreenErrPrefix(alarms, posted, templates, k + 1);
    } else {
      assert alarms[..k] == alarms;
    }
  }

  /** The whole stage: no templates configured lets nothing through without
      ending the run; otherwise an empty result ends the run with `exit(0)`. */
  function FilterStep(alarms: seq<Alarm>, issues: seq<Issue>, templates: seq<Template>): Step<Alarm> {
    if templates == [] then Continue([])
    else
      match Screen(alarms, PostedUuids(issues), templates)
      case Err(e) => Abort(e)
      case Ok(kept) => if kept == [] then Exit else Continue(kept)
  }

  /** `ys` is `xs` at the strictly increasing positions `idx`. */
  ghost predicate PickedAt<T>(xs: seq<T>, ys: seq<T>, idx: seq<nat>) {
    && |idx| == |ys|
    && (forall k :: 0 <= k < |idx| ==> idx[k] < |xs| && ys[k] == xs[idx[k]])
    && (forall k, l :: 0 <= k < l < |idx| ==> idx[k] < idx[l])
  }

  /** The elements of `xs` whose flag is set, in order. */
  function KeepFlagged<T>(xs: seq<T>, flags: seq<bool>): seq<T>
    requires |flags| == |xs|
  {
    if xs == [] then []
    else KeepFlagged(xs[..|xs| - 1], flags[..|xs| - 1]) + if flags[|xs| - 1] then [xs[|xs| - 1]] else []
  }

  /** Extending the input by one element that is kept or dropped. */
  lemma PickedAppend<T>(xs: seq<T>, ys: seq<T>, idx: seq<nat>, x: T, keep: bool)
    requires PickedAt(xs, ys, idx)
    ensures var idx' := if keep then idx + [|xs|] else idx;
      && PickedAt(xs + [x], if keep then ys + [x] else ys, idx')
      && (forall i :: 0 <= i < |xs| ==> (i in idx' <==> i in idx))
      && (|xs| in idx' <==> keep)
  {
    assert forall k :: 0 <= k < |idx| ==> idx[k] < |xs| && (xs + [x])[idx[k]] == xs[idx[k]];
  }

  /** The positions whose flag is set, in increasing order. */
  function FlaggedAt(flags: seq<bool>): seq<nat> {
    if flags == [] then []
    else FlaggedAt(flags[..|flags| - 1]) + if flags[|flags| - 1] then [|flags| - 1] else []
  }

  lemma {:induction false} FlaggedAtMembers(flags: seq<bool>)
    ensures forall k :: 0 <= k < |FlaggedAt(flags)| ==> FlaggedAt(flags)[k] < |flags|
    ensures forall i :: 0 <= i < |flags| ==> (i in FlaggedAt(flags) <==> flags[i])
  {
    if flags != [] {
      var finit := flags[..|flags| - 1];
      FlaggedAtMembers(finit);
      assert forall i :: 0 <= i < |finit| ==> finit[i] == flags[i];
    }
  }

  lemma {:induction false} KeepFlaggedPicks<T>(xs: seq<T>, flags: seq<bool>)
    requires |flags| == |xs|
    ensures PickedAt(xs, KeepFlagged(xs, flags), FlaggedAt(flags))
  {
    if xs != [] {
      var init, last := xs[..|xs| - 1], xs[|xs| - 1];
      var finit := flags[..|xs| - 1];
      KeepFlaggedPicks(init, finit);
      PickedAppend(init, KeepFlagged(init, finit), FlaggedAt(finit), last, flags[|xs| - 1]);
      assert init + [last] == xs;
    }
  }

  /** Which alarms the filter keeps, one flag per alarm. */
  function KeepFlags(alarms: seq<Alarm>, posted: seq<string>, templates: seq<Template>): (flags: seq<bool>)
    ensures |flags| == |alarms|
  {
    seq(|alarms|, i requires 0 <= i < |alarms| => Keeps(alarms[i], posted, templates))
  }

  lemma {:induction false} ScreenIsKeepFlagged(alarms: seq<Alarm>, posted: seq<string>, templates: seq<Template>)
    requires Screen(alarms, posted, templates).Ok?
    ensures Screen(alarms, posted, templates).value == KeepFlagged(alarms, KeepFlags(alarms, posted, templates))
  {
    if alarms != [] {
      var init := alarms[..|alarms| - 1];
      ScreenIsKeepFlagged(init, posted, templates);
      assert KeepFlags(alarms, posted, templates)[..|alarms| - 1] == KeepFlags(init, posted, templates);
    }
  }

  /** The filter keeps exactly the alarms that pass, in their original
      order: the result is the input at increasing positions, and position
      `i` is among them exactly when alarm `i` is kept. */
  lemma ScreenKeepsInOrder(alarms: seq<Alarm>, posted: seq<string>, templates: seq<Template>)
    requires Screen(alarms, posted, templates).Ok?
    ensures exists idx :: (PickedAt(alarms, Screen(alarms, posted, templates).value, idx) &&
      forall i :: 0 <= i < |alarms| ==> (i in idx <==> Keeps(alarms[i], posted, templates)))
  {
    var flags := KeepFlags(alarms, posted, templates);
    ScreenIsKeepFlagged(alarms, posted, templates);
    KeepFlaggedPicks(alarms, flags);
    FlaggedAtMembers(flags);
    assert PickedAt(alarms, Screen(alarms, posted, templates).value, FlaggedAt(flags));
  }

  /** The filter raises exactly when some alarm raises, and then with the
      fault of the first such alarm. */
  lemma {:induction false} ScreenRaises(alarms: seq<Alarm>, posted: seq<string>, templates: seq<Template>)
    ensures Screen(alarms, posted, templates).Err? <==> exists i :: 0 <= i < |alarms| && Raises(alarms[i], posted, templates)
    ensures Screen(alarms, posted, templates).Err? ==> exists i :: (0 <= i < |alarms| &&
      Inspect(alarms[i], posted, templates) == Err(Screen(alarms, posted, templates).error) &&
      forall k :: 0 <= k < i ==> !Raises(alarms[k], posted, templates))
  {
    if alarms != [] {
      var init, last := alarms[..|alarms| - 1], alarms[|alarms| - 1];
      ScreenRaises(init, posted, templates);
      assert forall i :: 0 <= i < |init| ==> init[i] == alarms[i];
    }
  }

  /** An alarm whose uuid is recorded on an issue is never kept. */
  lemma PostedNeverKept(alarm: Alarm, issues: seq<Issue>, templates: seq<Template>, i: nat)
    requires i < |issues| && HasProperty(issues[i], "alarm-uuid")
    requires Get(alarm, "uuid") == Some(Str(issues[i].properties["alarm-uuid"]))
    ensures !Keeps(alarm, PostedUuids(issues), templates)
  {
  }
}
