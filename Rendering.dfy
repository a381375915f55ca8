/** Placeholder substitution into a ticket's title and description lines
    (usm2jira/__script__.py:357-375): for every key of the ticket, in key
    order, `$key` is replaced by the key's value as plain text. */
module Rendering {
  import opened Strings
  import opened Records

  /** `str(value)` once a list value has been joined with ", ". */
  function Text(v: Value): string {
    match v
    case Str(s) => s
    case Strs(items) => Join(items, ", ")
    case Other(t) => t
  }

  /** `ticket[key] = ', '.join(ticket[key])` for a list value. */
  function Joined(v: Value): (w: Value)
    ensures Text(w) == Text(v) && !w.Strs?
    ensures v.Strs? ==> w.Str?
    ensures !v.Strs? ==> w == v
  {
    if v.Strs? then Str(Join(v.items, ", ")) else v
  }

  /** `key.startswith('_')`: bookkeeping keys that are never substituted. */
  predicate Private(key: string) {
    |key| > 0 && key[0] == '_'
  }

  function Placeholder(key: string): string {
    ['$'] + key
  }

  /** The guarded replacement of lines 361-365 and 371-374: only when the key
      name occurs in the text is `$key` replaced. */
  function Substitute(s: string, key: string, text: string): string {
    if Contains(s, key) then ReplaceAll(s, Placeholder(key), text) else s
  }

  /** The name guard never changes the text: where the name is absent, so is
      the placeholder. */
  lemma SubstituteIsReplace(s: string, key: string, text: string)
    ensures Substitute(s, key, text) == ReplaceAll(s, Placeholder(key), text)
  {
    if !Contains(s, key) {
      forall i | 0 <= i <= |s|
        ensures !OccursAt(s, i, Placeholder(key))
      {
        if OccursAt(s, i, Placeholder(key)) {
          assert s[i + 1..i + 1 + |key|] == s[i..i + |Placeholder(key)|][1..];
          assert OccursAt(s, i + 1, key);
        }
      }
      ReplaceAbsent(s, Placeholder(key), text);
    }
  }

  /** Text without `$` has no placeholder to replace. */
  lemma SubstituteDollarFree(s: string, key: string, text: string)
    requires '$' !in s
    ensures Substitute(s, key, text) == s
  {
    forall i | 0 <= i <= |s| - |Placeholder(key)|
      ensures !OccursAt(s, i, Placeholder(key))
    {
      assert s[i] in s;
      assert s[i..i + |Placeholder(key)|][0] == s[i];
    }
    if Contains(s, key) {
      ReplaceAbsent(s, Placeholder(key), text);
    }
  }

  /** The prefix hazard: key `src` rewrites part of the placeholder `$src_ip`. */
  lemma PrefixKeyRewritesLongerPlaceholder()
    ensures Substitute("$src_ip", "src", "10.0.0.1") == "10.0.0.1_ip"
  {
    SubstituteIsReplace("$src_ip", "src", "10.0.0.1");
    assert "$src_ip"[..4] == Placeholder("src");
    assert "$src_ip"[4..] == "_ip";
  }

  function SubstituteLines(lines: seq<string>, key: string, text: string): (r: seq<string>)
    ensures |r| == |lines|
  {
    seq(|lines|, i requires 0 <= i < |lines| => Substitute(lines[i], key, text))
  }

  /** The work done for one key of the ticket: its value is joined if it is a
      list and its name occurs in the title or in a line, and `$key` is
      replaced in the title and in every line. */
  function RenderKey(key: string, v: Value, title: string, lines: seq<string>): (Value, string, seq<string>) {
    if Private(key) then (v, title, lines)
    else
      var touched := Contains(title, key) || exists i :: 0 <= i < |lines| && Contains(lines[i], key);
      (if touched then Joined(v) else v, Substitute(title, key, Text(v)), SubstituteLines(lines, key, Text(v)))
  }

  /** A ticket being rendered: its fields, the title and the description lines. */
  datatype Draft = Draft(fields: Record, title: string, description: seq<string>)

  /** The loop over the ticket's keys, in order. */
  function RenderFields(fields: Record, title: string, lines: seq<string>): (d: Draft)
    ensures |d.fields| == |fields| && |d.description| == |lines|
  {
    if fields == [] then Draft([], title, lines)
    else
      var d := RenderFields(fields[..|fields| - 1], title, lines);
      var (key, v) := fields[|fields| - 1];
      var (v', t', ls') := RenderKey(key, v, d.title, d.description);
      Draft(d.fields + [(key, v')], t', ls')
  }

  /** Reference definition: one text rendered on its own, each public key's
      placeholder replaced in key order. */
  function RenderText(fields: Record, s: string): string {
    if fields == [] then s
    else
      var (key, v) := fields[|fields| - 1];
      var r := RenderText(fields[..|fields| - 1], s);
      if Private(key) then r else Substitute(r, key, Text(v))
  }

  /** The ticket's fields without the bookkeeping keys. */
  function Public(fields: Record): (p: Record)
    ensures forall i :: 0 <= i < |p| ==> !Private(p[i].0)
  {
    if fields == [] then []
    else Public(fields[..|fields| - 1]) + (if Private(fields[|fields| - 1].0) then [] else [fields[|fields| - 1]])
  }

  /** The title and every line are rendered independently of each other,
      each exactly as `RenderText` says; keys keep their place, values keep
      their text, and only a list value may turn into its joined string. */
  lemma {:induction false} RenderFieldsPerText(fields: Record, title: string, lines: seq<string>)
    ensures var d := RenderFields(fields, title, lines);
      && d.title == RenderText(fields, title)
      && (forall i :: 0 <= i < |lines| ==> d.description[i] == RenderText(fields, lines[i]))
      && (forall i :: 0 <= i < |fields| ==>
            d.fields[i].0 == fields[i].0 && Text(d.fields[i].1) == Text(fields[i].1) &&
            (d.fields[i].1 == fields[i].1 || d.fields[i].1 == Joined(fields[i].1)) &&
            (Private(fields[i].0) ==> d.fields[i].1 == fields[i].1))
  {
    if fields != [] {
      var init := fields[..|fields| - 1];
      RenderFieldsPerText(init, title, lines);
    }
  }

  /** Keys starting with `_` are never substituted: rendering with them
      gives the same text as rendering without them. */
  lemma {:induction false} PrivateKeysIgnored(fields: Record, s: string)
    ensures RenderText(fields, s) == RenderText(Public(fields), s)
  {
    if fields != [] {
      var init, last := fields[..|fields| - 1], fields[|fields| - 1];
      PrivateKeysIgnored(init, s);
      if !Private(last.0) {
        var p := Public(init) + [last];
        assert Public(fields) == p;
        assert p[..|p| - 1] == Public(init) && p[|p| - 1] == last;
        assert RenderText(p, s) == Substitute(RenderText(Public(init), s), last.0, Text(last.1));
        assert RenderText(fields, s) == Substitute(RenderText(init, s), last.0, Text(last.1));
      } else {
        assert Public(fields) == Public(init) + [] == Public(init);
        assert RenderText(fields, s) == RenderText(init, s);
      }
    }
  }

  /** Text without `$` renders to itself. */
  lemma {:induction false} RenderTextDollarFree(fields: Record, s: string)
    requires '$' !in s
    ensures RenderText(fields, s) == s
  {
    if fields != [] {
      RenderTextDollarFree(fields[..|fields| - 1], s);
      SubstituteDollarFree(s, fields[|fields| - 1].0, Text(fields[|fields| - 1].1));
    }
  }

  /** Lines 370-375: one key substituted into every description line, written
      back in place; the value is joined the first time the key's name is
      found in a line. */
  method ReplaceInLines(key: string, v0: Value, lines0: seq<string>) returns (v: Value, lines: seq<string>)
    ensures Text(v) == Text(v0)
    ensures v == if exists i :: 0 <= i < |lines0| && Contains(lines0[i], key) then Joined(v0) else v0
    ensures lines == SubstituteLines(lines0, key, Text(v0))
  {
    v, lines := v0, lines0;
    var idx := 0;
    while idx < |lines|
      invariant 0 <= idx <= |lines| == |lines0|
      invariant Text(v) == Text(v0)
      invariant v == if exists i :: 0 <= i < idx && Contains(lines0[i], key) then Joined(v0) else v0
      invariant forall i :: 0 <= i < idx ==> lines[i] == Substitute(lines0[i], key, Text(v0))
      invariant forall i :: idx <= i < |lines| ==> lines[i] == lines0[i]
    {
      if Contains(lines[idx], key) {
        v := Joined(v);
        lines := lines[idx := ReplaceAll(lines[idx], Placeholder(key), Text(v))];
      }
      idx := idx + 1;
    }
  }

  /** Lines 357-375: the loop over the ticket's keys, with the inner loop
      over the description lines written back in place. */
  method RenderKeys(fields: Record, title: string, description: seq<string>) returns (d: Draft)
    ensures d == RenderFields(fields, title, description)
  {
    var ticket, t, lines := fields, title, description;
    var n := 0;
    while n < |fields|
      invariant 0 <= n <= |fields| == |ticket|
      invariant Draft(ticket[..n], t, lines) == RenderFields(fields[..n], title, description)
      invariant ticket[n..] == fields[n..]
    {
      assert fields[..n + 1][..n] == fields[..n];
      var (key, v) := ticket[n];
      assert (key, v) == fields[n];
      if !Private(key) {
        ghost var t0, lines0, v0 := t, lines, v;
        if Contains(t, key) {
          v := Joined(v);
          t := ReplaceAll(t, Placeholder(key), Text(v));
        }
        if lines != [] {
          v, lines := ReplaceInLines(key, v, lines);
        }
        assert lines == SubstituteLines(lines0, key, Text(v0));
        assert t == Substitute(t0, key, Text(v0));
        assert v == RenderKey(key, v0, t0, lines0).0;
        ticket := ticket[n := (key, v)];
      }
      assert ticket[..n + 1] == ticket[..n] + [(key, if Private(key) then fields[n].1 else v)];
      n := n + 1;
    }
    assert ticket[..n] == ticket && fields[..n] == fields;
    d := Draft(ticket, t, lines);
  }
}
