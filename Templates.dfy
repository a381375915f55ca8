/** Configured ticket templates and the two different ways the pipeline asks
    whether a template's triggers apply to an alarm: the alarm filter
    (usm2jira/__script__.py:296-309) and the template selection of the ticket
    builder (usm2jira/__script__.py:348-352). */
module Templates {
  import opened Wrappers
  import opened Strings
  import opened Records

  /** `triggers` as configured: a mapping from alarm field to pattern, a list
      of rule names, or no usable triggers at all. */
  datatype Triggers = Patterns(pairs: seq<(string, string)>) | Names(names: seq<string>) | Absent

  /** A template; `titleFirst` records whether `title` precedes `description`
      among the template's keys, which decides the key order of the
      fingerprinted JSON. */
  datatype Template = Template(triggers: Triggers, title: string, description: seq<string>, titleFirst: bool)

  // ----- the alarm filter's test -----

  /** The alarm's `key` holds text that contains `pattern`, both lower-cased,
      the pattern stripped of leading and trailing `*`. */
  predicate PairMatches(alarm: Alarm, key: string, pattern: string) {
    match Get(alarm, key)
    case Some(Str(s)) => Contains(Lower(s), Lower(StripStars(pattern)))
    case _ => false
  }

  /** The alarm has `key`, but its value is not text, so `.lower()` raises. */
  predicate PairFails(alarm: Alarm, key: string) {
    Get(alarm, key).Some? && !Get(alarm, key).value.Str?
  }

  /** `alarm.get(key) in names`. */
  predicate NameListed(alarm: Alarm, key: string, names: seq<string>) {
    match Get(alarm, key)
    case Some(Str(s)) => s in names
    case _ => false
  }

  /** The template fires for the alarm in the filter's sense. */
  predicate Fires(alarm: Alarm, t: Template) {
    match t.triggers
    case Patterns(ps) => exists i :: 0 <= i < |ps| && PairMatches(alarm, ps[i].0, ps[i].1)
    case Names(ns) => NameListed(alarm, "rule_strategy", ns) || NameListed(alarm, "rule_method", ns)
    case Absent => false
  }

  /** Testing the template raises in the filter. */
  predicate Breaks(alarm: Alarm, t: Template) {
    t.triggers.Patterns? && exists i :: 0 <= i < |t.triggers.pairs| && PairFails(alarm, t.triggers.pairs[i].0)
  }

  /** The loop over a mapping's pairs (lines 300-303): every pair is
      evaluated, and the first pair whose field is not text raises. */
  function PatternsFire(alarm: Alarm, ps: seq<(string, string)>): Result<bool, Fault> {
    if ps == [] then Ok(false)
    else
      var init, last := ps[..|ps| - 1], ps[|ps| - 1];
      match PatternsFire(alarm, init)
      case Err(e) => Err(e)
      case Ok(b) =>
        if PairFails(alarm, last.0) then Err(WrongType(last.0))
        else Ok(b || PairMatches(alarm, last.0, last.1))
  }

  /** One template's test in the filter (lines 299-309). */
  function TemplateFires(alarm: Alarm, t: Template): Result<bool, Fault> {
    match t.triggers
    case Patterns(ps) => PatternsFire(alarm, ps)
    case Names(ns) => Ok(NameListed(alarm, "rule_strategy", ns) || NameListed(alarm, "rule_method", ns))
    case Absent => Ok(false)
  }

  /** The loop over all templates (lines 297-309): no template is skipped,
      even after one has fired. */
  function AnyFires(alarm: Alarm, ts: seq<Template>): Result<bool, Fault> {
    if ts == [] then Ok(false)
    else
      var init, last := ts[..|ts| - 1], ts[|ts| - 1];
      match AnyFires(alarm, init)
      case Err(e) => Err(e)
      case Ok(b) =>
        match TemplateFires(alarm, last)
        case Err(e) => Err(e)
        case Ok(c) => Ok(b || c)
  }

  /** The mapping's test raises exactly when some pair names a field that is
      present but not text; otherwise it fires exactly when some pair
      matches. */
  lemma {:induction false} PatternsFireMeaning(alarm: Alarm, ps: seq<(string, string)>)
    ensures PatternsFire(alarm, ps).Err? <==> exists i :: 0 <= i < |ps| && PairFails(alarm, ps[i].0)
    ensures PatternsFire(alarm, ps).Ok? ==>
      (PatternsFire(alarm, ps).value <==> exists i :: 0 <= i < |ps| && PairMatches(alarm, ps[i].0, ps[i].1))
  {
    if ps != [] {
      var init := ps[..|ps| - 1];
      PatternsFireMeaning(alarm, init);
      assert forall i :: 0 <= i < |init| ==> init[i] == ps[i];
    }
  }

  /** One template's test raises exactly when it breaks, and otherwise fires
      exactly when the template fires. */
  lemma TemplateFiresMeaning(alarm: Alarm, t: Template)
    ensures TemplateFires(alarm, t).Err? <==> Breaks(alarm, t)
    ensures TemplateFires(alarm, t).Ok? ==> (TemplateFires(alarm, t).value <==> Fires(alarm, t))
  {
    if t.triggers.Patterns? {
      PatternsFireMeaning(alarm, t.triggers.pairs);
    }
  }

  /** The filter's test raises exactly when some template breaks, and
      otherwise admits the alarm exactly when some template fires. */
  lemma {:induction false} AnyFiresMeaning(alarm: Alarm, ts: seq<Template>)
    ensures AnyFires(alarm, ts).Err? <==> exists j :: 0 <= j < |ts| && Breaks(alarm, ts[j])
    ensures AnyFires(alarm, ts).Ok? ==> (AnyFires(alarm, ts).value <==> exists j :: 0 <= j < |ts| && Fires(alarm, ts[j]))
  {
    if ts != [] {
      var init := ts[..|ts| - 1];
      AnyFiresMeaning(alarm, init);
      TemplateFiresMeaning(alarm, ts[|ts| - 1]);
      assert forall j :: 0 <= j < |init| ==> init[j] == ts[j];
    }
  }

  lemma {:induction false} PatternsFireErrPrefix(alarm: Alarm, ps: seq<(string, string)>, k: nat)
    requires k <= |ps| && PatternsFire(alarm, ps[..k]).Err?
    ensures PatternsFire(alarm, ps) == PatternsFire(alarm, ps[..k])
    decreases |ps| - k
  {
    if k < |ps| {
      assert ps[..k + 1][..k] == ps[..k];
      PatternsFireErrPrefix(alarm, ps, k + 1);
    } else {
      assert ps[..k] == ps;
    }
  }

  lemma {:induction false} AnyFiresErrPrefix(alarm: Alarm, ts: seq<Template>, k: nat)
    requires k <= |ts| && AnyFires(alarm, ts[..k]).Err?
    ensures AnyFires(alarm, ts) == AnyFires(alarm, ts[..k])
    decreases |ts| - k
  {
    if k < |ts| {
      assert ts[..k + 1][..k] == ts[..k];
      AnyFiresErrPrefix(alarm, ts, k + 1);
    } else {
      assert ts[..k] == ts;
    }
  }

  // ----- the ticket builder's test -----

  /** `value in triggers` as Python evaluates it: element equality on a list,
      key membership on a mapping (a list value is unhashable there), and a
      `TypeError` when there are no triggers. */
  function In(v: Value, key: string, tr: Triggers): (r: Result<bool, Fault>)
    ensures r.Ok? && r.value ==> v.Str?
  {
    match tr
    case Names(ns) => Ok(v.Str? && v.s in ns)
    case Patterns(ps) =>
      if v.Strs? then Err(WrongType(key))
      else Ok(v.Str? && exists i :: 0 <= i < |ps| && ps[i].0 == v.s)
    case Absent => Err(WrongType("triggers"))
  }

  /** Lines 349-350: the ticket's `rule_strategy`, or failing that its
      `rule_method`, is `in` the template's triggers. */
  function Selects(fields: Record, t: Template): Result<bool, Fault> {
    match Get(fields, "rule_strategy")
    case None => Err(MissingKey("rule_strategy"))
    case Some(rs) =>
      match In(rs, "rule_strategy", t.triggers)
      case Err(e) => Err(e)
      case Ok(true) => Ok(true)
      case Ok(false) =>
        match Get(fields, "rule_method")
        case None => Err(MissingKey("rule_method"))
        case Some(rm) => In(rm, "rule_method", t.triggers)
  }

  /** Lines 348-352 from position `j` on: the first template that selects,
      with `break`. */
  function SelectFrom(fields: Record, ts: seq<Template>, j: nat): (r: Result<Option<nat>, Fault>)
    requires j <= |ts|
    ensures r.Ok? && r.value.Some? ==> j <= r.value.value < |ts| && Selects(fields, ts[r.value.value]) == Ok(true)
    decreases |ts| - j
  {
    if j == |ts| then Ok(None)
    else
      match Selects(fields, ts[j])
      case Err(e) => Err(e)
      case Ok(true) => Ok(Some(j))
      case Ok(false) => SelectFrom(fields, ts, j + 1)
  }

  /** The template a ticket is rendered from: the first in configured order
      whose triggers contain the ticket's rule, or none. */
  function SelectTemplate(fields: Record, ts: seq<Template>): Result<Option<nat>, Fault> {
    SelectFrom(fields, ts, 0)
  }

  /** Selection yields the first template from `j` on that selects, none
      when every one declines, and the fault of the first template whose
      test raises before any selects. */
  lemma {:induction false} SelectFromMeaning(fields: Record, ts: seq<Template>, j: nat)
    requires j <= |ts|
    ensures var r := SelectFrom(fields, ts, j);
      (r.Ok? && r.value.Some? ==> forall k :: j <= k < r.value.value ==> Selects(fields, ts[k]) == Ok(false)) &&
      (r.Ok? && r.value.None? ==> forall k :: j <= k < |ts| ==> Selects(fields, ts[k]) == Ok(false)) &&
      (r.Err? ==> exists k :: (j <= k < |ts| && Selects(fields, ts[k]) == Err(r.error) &&
                               forall k' :: j <= k' < k ==> Selects(fields, ts[k']) == Ok(false)))
    decreases |ts| - j
  {
    if j < |ts| && Selects(fields, ts[j]) == Ok(false) {
      SelectFromMeaning(fields, ts, j + 1);
    }
  }

  /** Selection looks at nothing but the templates' triggers. */
  lemma {:induction false} SelectFromTriggersOnly(fields: Record, ts: seq<Template>, us: seq<Template>, j: nat)
    requires |ts| == |us| && j <= |ts|
    requires forall k :: 0 <= k < |ts| ==> ts[k].triggers == us[k].triggers
    ensures SelectFrom(fields, ts, j) == SelectFrom(fields, us, j)
    decreases |ts| - j
  {
    if j < |ts| {
      SelectFromTriggersOnly(fields, ts, us, j + 1);
      assert ts[j].triggers == us[j].triggers;
      assert Selects(fields, ts[j]) == Selects(fields, us[j]);
    }
  }

  /** For a list of rule names the two tests agree whenever the alarm's two
      rule fields are text. */
  lemma NamesAgree(alarm: Alarm, t: Template)
    requires t.triggers.Names?
    requires Get(alarm, "rule_strategy").Some? && Get(alarm, "rule_strategy").value.Str?
    requires Get(alarm, "rule_method").Some? && Get(alarm, "rule_method").value.Str?
    ensures Selects(alarm, t) == Ok(Fires(alarm, t))
  {
  }

  /** For a mapping the two tests differ: `{"rule_strategy": "*C&C*"}` lets a
      "C&C Communication" alarm through the filter, yet selection asks
      whether "C&C Communication" is a KEY of the mapping, so the alarm gets
      no template. */
  lemma PatternAdmitsButDoesNotSelect()
    ensures
      var t := Template(Patterns([("rule_strategy", "*C&C*")]), "Alert", [], true);
      var alarm: Alarm := [("rule_strategy", Str("C&C Communication")), ("rule_method", Str("Beacon"))];
      Fires(alarm, t) && AnyFires(alarm, [t]) == Ok(true) && SelectTemplate(alarm, [t]) == Ok(None)
  {
    var t := Template(Patterns([("rule_strategy", "*C&C*")]), "Alert", [], true);
    var alarm: Alarm := [("rule_strategy", Str("C&C Communication")), ("rule_method", Str("Beacon"))];
    assert StripStars("*C&C*") == "C&C" by {
      assert "*C&C*"[1..] == "C&C*";
      assert "C&C*"[..3] == "C&C";
    }
    assert Lower("C&C") == "c&c";
    assert Lower("C&C Communication")[0..3] == "c&c";
    assert OccursAt(Lower("C&C Communication"), 0, Lower(StripStars("*C&C*")));
    assert PairMatches(alarm, t.triggers.pairs[0].0, t.triggers.pairs[0].1);
  }
}
