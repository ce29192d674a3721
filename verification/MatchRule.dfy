/** The match rule a signal handler registers with the bus (src/lib/dbus/e_dbus_signal.c), read
    back as the D-Bus Specification, section "Match Rules", reads it. */
module MatchRule {
  import opened Prelude
  import opened OwnerTracking

  const MAXIMUM_LENGTH := 1024

  const SENDER_KEY := "sender"
  const PATH_KEY := "path"
  const INTERFACE_KEY := "interface"
  const MEMBER_KEY := "member"

  datatype Pair = Pair(key: string, value: string)

  const TYPE_PAIR := Pair("type", "signal")

  function Text(p: Pair): string {
    p.key + "='" + p.value + "'"
  }

  /** Pairs in the order of the rule. */
  function Render(ps: seq<Pair>): string {
    if ps == [] then "" else if |ps| == 1 then Text(ps[0])
    else Render(ps[..|ps| - 1]) + "," + Text(ps[|ps| - 1])
  }

  /** The value after a key's equals sign, and the text after the comma that ends it: between
      apostrophes every character stands for itself; outside, a backslash quotes an
      apostrophe. */
  function Value(s: string, quoted: bool): (r: Option<(string, string)>)
    ensures r.Some? ==> |r.value.1| <= |s|
  {
    if s == "" then (if quoted then None else Some(("", "")))
    else if s[0] == '\'' then Value(s[1..], !quoted)
    else if !quoted && s[0] == ',' then Some(("", s[1..]))
    else if !quoted && s[0] == '\\' && |s| > 1 && s[1] == '\'' then Prepend('\'', Value(s[2..], quoted))
    else Prepend(s[0], Value(s[1..], quoted))
  }

  function Prepend(c: char, r: Option<(string, string)>): (q: Option<(string, string)>)
    ensures q.Some? <==> r.Some?
    ensures q.Some? ==> q.value.1 == r.value.1
  {
    if r.None? then None else Some(([c] + r.value.0, r.value.1))
  }

  /** Where the first equals sign is, or the length. */
  function KeyEnd(s: string): (n: nat)
    ensures n <= |s|
  {
    if s == "" || s[0] == '=' then 0 else 1 + KeyEnd(s[1..])
  }

  /** The pairs of a rule. */
  function Parse(s: string): Option<seq<Pair>>
    decreases |s|
  {
    if s == "" then Some([]) else
      var n := KeyEnd(s);
      if n == |s| then None else
        var v := Value(s[n + 1..], false);
        if v.None? then None else
          var rest := Parse(v.value.1);
          if rest.None? then None else Some([Pair(s[..n], v.value.0)] + rest.value)
  }

  /** No value holds an apostrophe. */
  predicate NoApostrophe(ps: seq<Pair>) {
    forall k :: 0 <= k < |ps| ==> '\'' !in ps[k].value
  }

  predicate PlainKeys(ps: seq<Pair>) {
    forall k :: 0 <= k < |ps| ==> '=' !in ps[k].key
  }

  predicate Plain(p: Pair) {
    '\'' !in p.value && '=' !in p.key
  }

  function PrependAll(a: string, r: Option<(string, string)>): Option<(string, string)> {
    if r.None? then None else Some((a + r.value.0, r.value.1))
  }

  /** A quoted part of a value stands for itself. */
  lemma {:induction false} ValueOfQuoted(a: string, t: string)
    requires '\'' !in a
    ensures Value(a + "'" + t, true) == PrependAll(a, Value(t, false))
  {
    var s := a + "'" + t;
    var r := Value(t, false);
    if a == "" {
      assert s[1..] == t;
      assert r.Some? ==> "" + r.value.0 == r.value.0;
    } else {
      assert s[0] == a[0] && a[0] in a && s[1..] == a[1..] + "'" + t;
      ValueOfQuoted(a[1..], t);
      assert a == [a[0]] + a[1..];
      assert r.Some? ==> [a[0]] + (a[1..] + r.value.0) == a + r.value.0;
    }
  }

  lemma {:induction false} KeyEndAt(key: string, tail: string)
    requires '=' !in key
    ensures KeyEnd(key + "=" + tail) == |key|
  {
    var s := key + "=" + tail;
    if key != "" {
      assert s[1..] == key[1..] + "=" + tail;
      KeyEndAt(key[1..], tail);
    }
  }

  lemma ParseKey(key: string, q: string)
    requires '=' !in key && Value(q, false).Some?
    ensures var rest := Parse(Value(q, false).value.1);
      Parse(key + "=" + q) == if rest.None? then None else Some([Pair(key, Value(q, false).value.0)] + rest.value)
  {
    var s := key + "=" + q;
    KeyEndAt(key, q);
    assert s[|key| + 1..] == q && s[..|key|] == key;
  }

  lemma ValueFirst(v: string, tail: string)
    requires '\'' !in v && (tail == "" || tail[0] == ',')
    ensures Value("'" + v + "'" + tail, false) == Some((v, if tail == "" then "" else tail[1..]))
  {
    var q := "'" + v + "'" + tail;
    assert q[1..] == v + "'" + tail;
    ValueOfQuoted(v, tail);
    assert v + "" == v;
  }

  lemma ParseFirst(p: Pair, tail: string)
    requires Plain(p) && (tail == "" || tail[0] == ',')
    ensures var rest := Parse(if tail == "" then "" else tail[1..]);
      Parse(Text(p) + tail) == if rest.None? then None else Some([p] + rest.value)
  {
    assert Text(p) + tail == p.key + "=" + ("'" + p.value + "'" + tail);
    ValueFirst(p.value, tail);
    ParseKey(p.key, "'" + p.value + "'" + tail);
  }

  lemma {:induction false} RenderFirst(ps: seq<Pair>)
    requires ps != []
    ensures Render(ps) == Text(ps[0]) + if |ps| == 1 then "" else "," + Render(ps[1..])
  {
    if |ps| > 1 {
      var front, last := ps[..|ps| - 1], ps[|ps| - 1];
      RenderFirst(front);
      if |ps| == 2 {
        assert ps[1..] == [last];
      } else {
        assert front[1..] == ps[1..][..|ps| - 2];
        assert Render(ps) == Text(ps[0]) + "," + Render(front[1..]) + "," + Text(last);
      }
    }
  }

  /** The bus reads back exactly the pairs that were written. */
  lemma {:induction false} ParseRender(ps: seq<Pair>)
    requires forall k :: 0 <= k < |ps| ==> Plain(ps[k])
    ensures Parse(Render(ps)) == Some(ps)
  {
    if ps != [] {
      RenderFirst(ps);
      ParseRender(ps[1..]);
      var tail := if |ps| == 1 then "" else "," + Render(ps[1..]);
      ParseFirst(ps[0], tail);
      assert tail != "" ==> tail[1..] == Render(ps[1..]);
      assert ps == [ps[0]] + ps[1..];
    }
  }

  // ----- the exact condition: the reader gives back at most the characters that are not
  // apostrophes

  /** The characters that are not apostrophes. */
  ghost function Bare(s: string): nat {
    if s == "" then 0 else (if s[0] == '\'' then 0 else 1) + Bare(s[1..])
  }

  lemma {:induction false} BareConcat(a: string, b: string)
    ensures Bare(a + b) == Bare(a) + Bare(b)
  {
    if a == "" {
      assert a + b == b;
    } else {
      assert (a + b)[1..] == a[1..] + b;
      BareConcat(a[1..], b);
    }
  }

  lemma {:induction false} BareAll(s: string)
    ensures Bare(s) <= |s| && (Bare(s) == |s| <==> '\'' !in s)
  {
    if s != "" {
      BareAll(s[1..]);
      assert s == [s[0]] + s[1..];
    }
  }

  lemma {:induction false} KeyBare(s: string)
    ensures Bare(s) == Bare(s[..KeyEnd(s)]) + Bare(s[KeyEnd(s)..])
  {
    BareConcat(s[..KeyEnd(s)], s[KeyEnd(s)..]);
    assert s == s[..KeyEnd(s)] + s[KeyEnd(s)..];
  }

  /** Reading a value uses up a bare character for each character it returns, and the comma. */
  lemma {:induction false} ValueBare(s: string, quoted: bool)
    ensures var r := Value(s, quoted);
      r.Some? ==> Bare(s) >= |r.value.0| + Bare(r.value.1) + if r.value.1 == "" then 0 else 1
  {
    if s == "" {
    } else if s[0] == '\'' {
      ValueBare(s[1..], !quoted);
    } else if !quoted && s[0] == ',' {
    } else if !quoted && s[0] == '\\' && |s| > 1 && s[1] == '\'' {
      assert s[1..][1..] == s[2..];
      ValueBare(s[2..], quoted);
    } else {
      ValueBare(s[1..], quoted);
    }
  }

  /** The bare characters a rule of these pairs needs, if its values were read as they are. */
  ghost function Needed(ps: seq<Pair>): nat {
    if ps == [] then 0
    else Bare(ps[0].key) + 1 + |ps[0].value| + if |ps| == 1 then 0 else 1 + Needed(ps[1..])
  }

  lemma {:induction false} ParseNeeds(s: string)
    requires Parse(s).Some?
    ensures Bare(s) >= Needed(Parse(s).value)
    decreases |s|
  {
    if s != "" {
      var n := KeyEnd(s);
      KeyEndIsEquals(s);
      KeyBare(s);
      assert s[n..][1..] == s[n + 1..];
      var v := Value(s[n + 1..], false).value;
      ValueBare(s[n + 1..], false);
      ParseNeeds(v.1);
      var rest := Parse(v.1).value;
      assert Parse(s).value[1..] == rest;
    }
  }

  lemma {:induction false} KeyEndIsEquals(s: string)
    ensures KeyEnd(s) < |s| ==> s[KeyEnd(s)] == '='
  {
    if s != "" && s[0] != '=' {
      KeyEndIsEquals(s[1..]);
    }
  }

  lemma BareText(p: Pair)
    ensures Bare(Text(p)) == Bare(p.key) + 1 + Bare(p.value)
  {
    BareConcat(p.key + "='", p.value + "'");
    BareConcat(p.key, "='");
    BareConcat(p.value, "'");
    assert Text(p) == (p.key + "='") + (p.value + "'");
    assert "='"[1..] == "'" && "'"[1..] == "";
  }

  /** The bare characters written are fewer by those apostrophes that stand in values. */
  lemma {:induction false} RenderNeeds(ps: seq<Pair>)
    ensures Bare(Render(ps)) <= Needed(ps)
    ensures Bare(Render(ps)) == Needed(ps) ==> NoApostrophe(ps)
  {
    if ps != [] {
      RenderFirst(ps);
      BareText(ps[0]);
      BareAll(ps[0].value);
      if |ps| > 1 {
        RenderNeeds(ps[1..]);
        BareConcat(Text(ps[0]), "," + Render(ps[1..]));
        BareConcat(",", Render(ps[1..]));
        assert ","[1..] == "";
        forall k | 0 <= k < |ps| && Bare(Render(ps)) == Needed(ps) ensures '\'' !in ps[k].value {
          assert k > 0 ==> ps[k] == ps[1..][k - 1];
        }
      } else {
        assert Text(ps[0]) + "" == Text(ps[0]);
      }
    }
  }

  /** The bus reads back exactly the pairs that were written if and only if no value holds an
      apostrophe. */
  lemma ParseRenderIff(ps: seq<Pair>)
    requires PlainKeys(ps)
    ensures Parse(Render(ps)) == Some(ps) <==> NoApostrophe(ps)
  {
    if NoApostrophe(ps) {
      ParseRender(ps);
    }
    if Parse(Render(ps)) == Some(ps) {
      ParseNeeds(Render(ps));
      RenderNeeds(ps);
    }
  }

  /** Two apostrophes in a value end the quoting and start it again: they are not read back. */
  lemma ApostrophesAreLost(key: string, a: string, b: string)
    requires '=' !in key && '\'' !in a && '\'' !in b
    ensures Parse(Render([Pair(key, a + "''" + b)])) == Some([Pair(key, a + b)])
  {
    var q := "'" + (a + "''" + b) + "'";
    assert q[1..] == a + "'" + ("'" + b + "'");
    ValueOfQuoted(a, "'" + b + "'");
    assert "'" + b + "'" + "" == "'" + b + "'";
    ValueFirst(b, "");
    assert Value(q, false) == Some((a + b, ""));
    var p := Pair(key, a + "''" + b);
    assert Render([p]) == Text(p) == key + "=" + q;
    ParseKey(key, q);
    assert Parse("") == Some([]) && [Pair(key, a + b)] + [] == [Pair(key, a + b)];
  }

  /** The bus would read an apostrophe that is written as the specification says: the quoting ends,
      a backslash quotes it, and the quoting starts again. The rules built here never do so. */
  lemma QuotedApostropheIsRead(key: string, a: string, b: string)
    requires '=' !in key && '\'' !in a && '\'' !in b
    ensures Parse(key + "=" + ("'" + (a + ("'" + ("\\'" + ("'" + b + "'")))))) == Some([Pair(key, a + ("'" + b))])
  {
    var last := "'" + b + "'";
    var tail := "\\'" + last;
    var q := "'" + (a + ("'" + tail));
    assert last + "" == last && tail[2..] == last && tail[0] == '\\' && tail[1] == '\'';
    ValueFirst(b, "");
    assert Value(tail, false) == Prepend('\'', Some((b, ""))) == Some((['\''] + b, ""));
    ValueOfQuoted(a, tail);
    assert q[1..] == a + "'" + tail;
    assert Value(q, false) == Some((a + (['\''] + b), ""));
    ParseKey(key, q);
    assert Parse("") == Some([]);
    assert [Pair(key, a + ("'" + b))] + [] == [Pair(key, a + ("'" + b))];
  }

  /** What _match_append accepts: a value that is there, as long as the rule stays short. */
  predicate Accepts(rule: string, key: string, value: Option<string>) {
    value.Some? && value.value != "" && |rule| + 4 + |key| + |value.value| < MAXIMUM_LENGTH
  }

  class Match {
    var text: string
    ghost var pairs: seq<Pair>       // the accepted pairs

    /** The text is the prefix and the accepted pairs, and short enough for the bus. */
    ghost predicate Valid()
      reads this
    {
      |text| < MAXIMUM_LENGTH && text == Render([TYPE_PAIR] + pairs)
    }

    constructor ()
      ensures Valid() && pairs == []
    {
      text, pairs := "type='signal'", [];
    }

    /** _match_append. */
    method Append(key: string, value: Option<string>)
      requires Valid()
      modifies this
      ensures Valid()
      ensures pairs == if Accepts(old(text), key, value) then old(pairs) + [Pair(key, value.value)] else old(pairs)
      ensures |text| == |old(text)| + if Accepts(old(text), key, value) then Size(key, value) else 0
    {
      if value.None? || value.value == "" {
        return;
      }
      if |text| + 4 + |key| + |value.value| >= MAXIMUM_LENGTH {
        return;
      }
      text := text + "," + key + "='" + value.value + "'";
      ghost var p := Pair(key, value.value);
      ghost var all := [TYPE_PAIR] + (pairs + [p]);
      assert all[..|all| - 1] == [TYPE_PAIR] + pairs;
      assert text == old(text) + "," + Text(p);
      pairs := pairs + [p];
    }
  }

  /** What one field of the rule demands of a message, if it was accepted. */
  predicate Demands(p: Pair, sg: Signal) {
    && (p.key == PATH_KEY ==> p.value == sg.path)
    && (p.key == INTERFACE_KEY ==> p.value == sg.iface)
    && (p.key == MEMBER_KEY ==> p.value == sg.member)
  }

  /** The path, interface and member part of a rule; the sender part is resolved by the bus. */
  ghost predicate PartSelects(ps: seq<Pair>, sg: Signal) {
    ps == [] || (Demands(ps[|ps| - 1], sg) && PartSelects(ps[..|ps| - 1], sg))
  }

  lemma {:induction false} PartSelectsRest(p: Pair, ps: seq<Pair>, sg: Signal)
    ensures PartSelects([p] + ps, sg) <==> Demands(p, sg) && PartSelects(ps, sg)
  {
    if ps == [] {
      assert [p] + ps == [p] && [p][..0] == [];
    } else {
      PartSelectsRest(p, ps[..|ps| - 1], sg);
      assert ([p] + ps)[..|ps|] == [p] + ps[..|ps| - 1];
    }
  }

  /** The field of the handler that a pair was built from. */
  function Field(v: View, key: string): Option<string> {
    if key == SENDER_KEY then v.sender
    else if key == PATH_KEY then v.path
    else if key == INTERFACE_KEY then v.iface
    else if key == MEMBER_KEY then v.member
    else None
  }

  /** Every pair repeats a field of the handler. */
  ghost predicate From(ps: seq<Pair>, v: View) {
    ps == [] || (Field(v, ps[|ps| - 1].key) == Some(ps[|ps| - 1].value) && From(ps[..|ps| - 1], v))
  }

  ghost predicate Has(ps: seq<Pair>, key: string) {
    ps != [] && (ps[|ps| - 1].key == key || Has(ps[..|ps| - 1], key))
  }

  lemma {:induction false} FromLocal(ps: seq<Pair>, v: View, sg: Signal)
    requires From(ps, v)
    ensures LocalMatch(v, sg) ==> PartSelects(ps, sg)
  {
    if ps != [] {
      FromLocal(ps[..|ps| - 1], v, sg);
    }
  }

  lemma {:induction false} HasDemands(ps: seq<Pair>, v: View, key: string, sg: Signal)
    requires From(ps, v) && Has(ps, key) && PartSelects(ps, sg)
    ensures Field(v, key).Some? && Demands(Pair(key, Field(v, key).value), sg)
  {
    if ps[|ps| - 1].key != key {
      HasDemands(ps[..|ps| - 1], v, key, sg);
    }
  }

  /** A field of the handler that is not in the rule may be anything. */
  lemma {:induction false} FreeField(ps: seq<Pair>, v: View, key: string, sg: Signal)
    requires From(ps, v) && !Has(ps, key)
    requires key != PATH_KEY ==> (v.path.Some? ==> v.path.value == sg.path)
    requires key != INTERFACE_KEY ==> (v.iface.Some? ==> v.iface.value == sg.iface)
    requires key != MEMBER_KEY ==> (v.member.Some? ==> v.member.value == sg.member)
    ensures PartSelects(ps, sg)
  {
    if ps != [] {
      FreeField(ps[..|ps| - 1], v, key, sg);
    }
  }

  /** Nothing of the handler's own filter was dropped from the rule. */
  ghost predicate Complete(ps: seq<Pair>, v: View) {
    && (v.path.Some? ==> Has(ps, PATH_KEY))
    && (v.iface.Some? ==> Has(ps, INTERFACE_KEY))
    && (v.member.Some? ==> Has(ps, MEMBER_KEY))
  }

  function Or(o: Option<string>): string {
    if o.Some? then o.value else ""
  }

  /** The rule never excludes what the handler would accept; and it selects exactly what the
      handler accepts, for every message, exactly when no field was dropped. */
  lemma RuleAndFilter(ps: seq<Pair>, v: View)
    requires From(ps, v)
    ensures forall sg :: LocalMatch(v, sg) ==> PartSelects(ps, sg)
    ensures (forall sg :: PartSelects(ps, sg) <==> LocalMatch(v, sg)) <==> Complete(ps, v)
  {
    forall sg ensures LocalMatch(v, sg) ==> PartSelects(ps, sg) {
      FromLocal(ps, v, sg);
    }
    if Complete(ps, v) {
      forall sg | PartSelects(ps, sg) ensures LocalMatch(v, sg) {
        if v.path.Some? { HasDemands(ps, v, PATH_KEY, sg); }
        if v.iface.Some? { HasDemands(ps, v, INTERFACE_KEY, sg); }
        if v.member.Some? { HasDemands(ps, v, MEMBER_KEY, sg); }
      }
    } else {
      var sg := Signal("", Or(v.path), Or(v.iface), Or(v.member), []);
      var key := if v.path.Some? && !Has(ps, PATH_KEY) then PATH_KEY
                 else if v.iface.Some? && !Has(ps, INTERFACE_KEY) then INTERFACE_KEY else MEMBER_KEY;
      var other := if key == PATH_KEY then sg.(path := sg.path + "x")
                   else if key == INTERFACE_KEY then sg.(iface := sg.iface + "x") else sg.(member := sg.member + "x");
      FreeField(ps, v, key, other);
      assert !LocalMatch(v, other);
    }
  }

  function Size(key: string, value: Option<string>): nat {
    if value.None? || value.value == "" then 0 else 4 + |key| + |value.value|
  }

  predicate NoEmptyField(v: View) {
    v.path != Some("") && v.iface != Some("") && v.member != Some("")
  }

  /** The accepted pairs among the first n fields, in the order they are offered. */
  ghost function Accepted(v: View, n: nat): seq<Pair>
    requires n <= |KEYS|
  {
    if n == 0 then [] else
      var before := Accepted(v, n - 1);
      if Accepts(Render([TYPE_PAIR] + before), KEYS[n - 1], Field(v, KEYS[n - 1]))
      then before + [Pair(KEYS[n - 1], Field(v, KEYS[n - 1]).value)] else before
  }

  const KEYS := [SENDER_KEY, PATH_KEY, INTERFACE_KEY, MEMBER_KEY]

  lemma AcceptedStep(v: View, n: nat)
    requires n < |KEYS|
    ensures var before, after := Accepted(v, n), Accepted(v, n + 1);
      after == before || (Field(v, KEYS[n]).Some? && after == before + [Pair(KEYS[n], Field(v, KEYS[n]).value)])
  {}

  lemma {:induction false} AcceptedFrom(v: View, n: nat)
    requires n <= |KEYS|
    ensures From(Accepted(v, n), v)
  {
    if n > 0 {
      AcceptedFrom(v, n - 1);
      AcceptedStep(v, n - 1);
      if Accepted(v, n) != Accepted(v, n - 1) {
        FromNext(Accepted(v, n - 1), v, KEYS[n - 1]);
      }
    }
  }

  lemma FromNext(ps: seq<Pair>, v: View, key: string)
    requires From(ps, v) && Field(v, key).Some?
    ensures From(ps + [Pair(key, Field(v, key).value)], v)
  {
    assert (ps + [Pair(key, Field(v, key).value)])[..|ps|] == ps;
  }

  lemma KeyIsPlain(k: nat)
    requires k < |KEYS|
    ensures '=' !in KEYS[k]
  {
    assert '=' !in SENDER_KEY && '=' !in PATH_KEY && '=' !in INTERFACE_KEY && '=' !in MEMBER_KEY;
  }

  lemma PlainNext(ps: seq<Pair>, p: Pair)
    requires PlainKeys(ps) && '=' !in p.key
    ensures PlainKeys(ps + [p])
  {}

  lemma {:induction false} AcceptedKeys(v: View, n: nat)
    requires n <= |KEYS|
    ensures PlainKeys(Accepted(v, n))
  {
    if n > 0 {
      AcceptedKeys(v, n - 1);
      AcceptedStep(v, n - 1);
      KeyIsPlain(n - 1);
      if Accepted(v, n) != Accepted(v, n - 1) {
        PlainNext(Accepted(v, n - 1), Pair(KEYS[n - 1], Field(v, KEYS[n - 1]).value));
      }
    }
  }

  /** The length of the rule with its first n fields. */
  function LengthOf(v: View, n: nat): nat
    requires n <= |KEYS|
  {
    if n == 0 then |Text(TYPE_PAIR)| else LengthOf(v, n - 1) + Size(KEYS[n - 1], Field(v, KEYS[n - 1]))
  }

  function Length(v: View): nat {
    LengthOf(v, |KEYS|)
  }

  lemma {:induction false} LengthGrows(v: View, n: nat, m: nat)
    requires n <= m <= |KEYS|
    ensures LengthOf(v, n) <= LengthOf(v, m)
  {
    if n < m {
      LengthGrows(v, n, m - 1);
    }
  }

  lemma {:induction false} AcceptedHas(v: View, n: nat, k: nat)
    requires k < n <= |KEYS| && Length(v) < MAXIMUM_LENGTH
    ensures Field(v, KEYS[k]).Some? && Field(v, KEYS[k]) != Some("") ==> Has(Accepted(v, n), KEYS[k])
  {
    var before := Accepted(v, n - 1);
    assert Accepted(v, n) != before ==> Accepted(v, n)[..|before|] == before;
    if k < n - 1 {
      AcceptedHas(v, n - 1, k);
    } else {
      AcceptedLength(v, k);
      LengthGrows(v, k + 1, |KEYS|);
    }
  }

  lemma {:induction false} AcceptedLength(v: View, n: nat)
    requires n <= |KEYS|
    ensures |Render([TYPE_PAIR] + Accepted(v, n))| <= LengthOf(v, n)
  {
    if n > 0 {
      AcceptedLength(v, n - 1);
      var before, now := Accepted(v, n - 1), Accepted(v, n);
      assert now != before ==> ([TYPE_PAIR] + now)[..|before| + 1] == [TYPE_PAIR] + before;
    }
  }

  lemma RuleAsRead(v: View, ps: seq<Pair>)
    requires ps == Accepted(v, |KEYS|)
    ensures Parse(Render([TYPE_PAIR] + ps)) == Some([TYPE_PAIR] + ps) <==> NoApostrophe(ps)
    ensures forall sg :: LocalMatch(v, sg) ==> PartSelects([TYPE_PAIR] + ps, sg)
    ensures (forall sg :: PartSelects([TYPE_PAIR] + ps, sg) <==> LocalMatch(v, sg)) <==> Complete(ps, v)
    ensures Length(v) < MAXIMUM_LENGTH && NoEmptyField(v) ==> Complete(ps, v)
  {
    AcceptedFrom(v, |KEYS|);
    AcceptedKeys(v, |KEYS|);
    ReadBack(ps);
    RuleAndFilter(ps, v);
    forall sg ensures PartSelects([TYPE_PAIR] + ps, sg) <==> PartSelects(ps, sg) {
      PartSelectsRest(TYPE_PAIR, ps, sg);
    }
    if Length(v) < MAXIMUM_LENGTH && NoEmptyField(v) {
      AcceptedHas(v, |KEYS|, 1);
      AcceptedHas(v, |KEYS|, 2);
      AcceptedHas(v, |KEYS|, 3);
    }
  }

  lemma WithType(ps: seq<Pair>)
    requires PlainKeys(ps)
    ensures var all := [TYPE_PAIR] + ps; PlainKeys(all) && (NoApostrophe(all) <==> NoApostrophe(ps))
  {
    var all := [TYPE_PAIR] + ps;
    forall k | 0 <= k < |all| ensures '=' !in all[k].key {
      assert k > 0 ==> all[k] == ps[k - 1];
    }
    forall k | 0 <= k < |ps| ensures all[k + 1] == ps[k] {}
    if NoApostrophe(ps) {
      forall k | 0 <= k < |all| ensures '\'' !in all[k].value {
        assert k > 0 ==> all[k] == ps[k - 1];
      }
    }
  }

  lemma ReadBack(ps: seq<Pair>)
    requires PlainKeys(ps)
    ensures Parse(Render([TYPE_PAIR] + ps)) == Some([TYPE_PAIR] + ps) <==> NoApostrophe(ps)
  {
    WithType(ps);
    ParseRenderIff([TYPE_PAIR] + ps);
  }

  /** One field of the text. */
  function Part(key: string, value: Option<string>): string {
    if value.None? || value.value == "" then "" else "," + (key + "='" + value.value + "'")
  }

  lemma RenderPush(ps: seq<Pair>, p: Pair)
    requires ps != []
    ensures Render(ps + [p]) == Render(ps) + ("," + Text(p))
  {
    assert (ps + [p])[..|ps|] == ps;
    assert Render(ps) + "," + Text(p) == Render(ps) + ("," + Text(p));
  }

  lemma AcceptedIfThere(v: View, n: nat, value: Option<string>)
    requires n < |KEYS| && Length(v) < MAXIMUM_LENGTH && value == Field(v, KEYS[n])
    ensures Accepted(v, n + 1) ==
            if value.None? || value.value == "" then Accepted(v, n) else Accepted(v, n) + [Pair(KEYS[n], value.value)]
  {
    AcceptedLength(v, n);
    LengthGrows(v, n + 1, |KEYS|);
  }

  lemma TextNext(before: seq<Pair>, now: seq<Pair>, key: string, value: Option<string>)
    requires now == if value.None? || value.value == "" then before else before + [Pair(key, value.value)]
    ensures Render([TYPE_PAIR] + now) == Render([TYPE_PAIR] + before) + Part(key, value)
  {
    if value.Some? && value.value != "" {
      var p := Pair(key, value.value);
      RenderPush([TYPE_PAIR] + before, p);
      assert [TYPE_PAIR] + before + [p] == [TYPE_PAIR] + now;
      assert "," + Text(p) == Part(key, value);
    }
  }

  lemma TypeText()
    ensures Render([TYPE_PAIR] + []) == "type='signal'"
  {
    assert [TYPE_PAIR] + [] == [TYPE_PAIR];
  }

  lemma TextStep(v: View, n: nat, key: string, value: Option<string>, before: seq<Pair>, now: seq<Pair>)
    requires n < |KEYS| && key == KEYS[n] && value == Field(v, key) && Length(v) < MAXIMUM_LENGTH
    requires before == Accepted(v, n) && now == Accepted(v, n + 1)
    ensures Render([TYPE_PAIR] + now) == Render([TYPE_PAIR] + before) + Part(key, value)
  {
    AcceptedIfThere(v, n, value);
    TextNext(before, now, key, value);
  }

  /** The text of a rule that is not too long: the type, and then sender, path, interface and
      member, as far as the handler names them. */
  lemma RuleText(v: View)
    requires Length(v) < MAXIMUM_LENGTH
    ensures Render([TYPE_PAIR] + Accepted(v, |KEYS|)) ==
            "type='signal'" + Part("sender", v.sender) + Part("path", v.path) + Part("interface", v.iface)
            + Part("member", v.member)
  {
    TypeText();
    TextStep(v, 0, "sender", v.sender, [], Accepted(v, 1));
    TextStep(v, 1, "path", v.path, Accepted(v, 1), Accepted(v, 2));
    TextStep(v, 2, "interface", v.iface, Accepted(v, 2), Accepted(v, 3));
    TextStep(v, 3, "member", v.member, Accepted(v, 3), Accepted(v, 4));
  }

  /** The rule text of e_dbus_signal_handler_add. The bus reads in it what was accepted exactly
      if no accepted field holds an apostrophe; the rule lets through whatever the handler
      accepts, and nothing else exactly if no field was dropped. */
  method BuildRule(v: View) returns (m: Match)
    ensures fresh(m) && m.Valid() && m.pairs == Accepted(v, |KEYS|)
    ensures Length(v) < MAXIMUM_LENGTH ==>
              m.text == "type='signal'" + Part("sender", v.sender) + Part("path", v.path) + Part("interface", v.iface)
                        + Part("member", v.member)
    ensures Parse(m.text) == Some([TYPE_PAIR] + m.pairs) <==> NoApostrophe(m.pairs)
    ensures forall sg :: LocalMatch(v, sg) ==> PartSelects([TYPE_PAIR] + m.pairs, sg)
    ensures (forall sg :: PartSelects([TYPE_PAIR] + m.pairs, sg) <==> LocalMatch(v, sg)) <==> Complete(m.pairs, v)
    ensures Length(v) < MAXIMUM_LENGTH && NoEmptyField(v) ==> Complete(m.pairs, v)
  {
    m := new Match();
    m.Append(SENDER_KEY, v.sender);
    assert m.pairs == Accepted(v, 1);
    m.Append(PATH_KEY, v.path);
    assert m.pairs == Accepted(v, 2);
    m.Append(INTERFACE_KEY, v.iface);
    assert m.pairs == Accepted(v, 3);
    m.Append(MEMBER_KEY, v.member);
    RuleAsRead(v, m.pairs);
    if Length(v) < MAXIMUM_LENGTH {
      RuleText(v);
    }
  }
}
