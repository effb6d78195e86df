/** Repeating-group validation: a recursive-descent check of a message's fields against the rule trees of
    the dictionary, proved sound and complete for the grammar of nested groups. */
module Dictionary {
  import opened Decimal
  import opened Codec

  /** A field, a repeating group (a field with children) or a component (children without a tag). */
  datatype Rule = Rule(tag: nat, required: bool, component: bool, children: seq<Rule>)

  /** Which tags the dictionary defines, and whether undefined user fields are refused. */
  datatype Setting = Setting(defined: nat -> bool, strict: bool)

  const USER_TAGS := 5000

  /** Components expanded; groups stay as ordered subscopes. */
  function Flatten(rules: seq<Rule>): seq<Rule> {
    if rules == [] then []
    else (if rules[0].component then Flatten(rules[0].children) else [rules[0]]) + Flatten(rules[1..])
  }

  predicate Present(r: Rule, seen: set<nat>)
    decreases r, 0
  {
    if r.component then AnyPresent(r.children, seen) else r.tag in seen
  }

  predicate AnyPresent(rules: seq<Rule>, seen: set<nat>)
    decreases rules, 1
  {
    rules != [] && (Present(rules[0], seen) || AnyPresent(rules[1..], seen))
  }

  /** The first required tag that is missing; an optional component counts only when some of it is present. */
  function Missing(rules: seq<Rule>, seen: set<nat>): Option<nat> {
    if rules == [] then None
    else
      var r := rules[0];
      var here :=
        if r.component then if r.required || Present(r, seen) then Missing(r.children, seen) else None
        else if r.required && r.tag !in seen then Some(r.tag) else None;
      if here.Some? then here else Missing(rules[1..], seen)
  }

  /** The rule for a tag: the last one listed. */
  function Rank(flat: seq<Rule>, tag: nat): (k: int)
    ensures -1 <= k < |flat| && (k >= 0 ==> flat[k].tag == tag)
    ensures forall i :: k < i < |flat| ==> flat[i].tag != tag
    decreases |flat|
  {
    if flat == [] then -1
    else if flat[|flat| - 1].tag == tag then |flat| - 1
    else Rank(flat[..|flat| - 1], tag)
  }

  /** NumInGroup as Atoi leaves it, its error ignored: 0 for anything that is not a number, the nearest
      int64 when out of range. */
  function CountOf(v: string): int {
    var signed := v != "" && (v[0] == '-' || v[0] == '+');
    var digits := if signed then v[1..] else v;
    if !AllDigits(digits) then 0
    else
      var n := if v[0] == '-' then 0 - Value(digits) else Value(digits);
      if n > MAX_INT64 then MAX_INT64 else if n < MIN_INT64 then MIN_INT64 else n
  }

  datatype Verdict = Fine(rest: seq<Field>) | Bad(tag: nat, reason: string)

  predicate HasTagged(flat: seq<Rule>, tag: nat) {
    Rank(flat, tag) >= 0
  }

  /** Every group has at least one field to delimit its instances. */
  predicate WellFormed(rules: seq<Rule>) {
    rules == []
    || ((rules[0].children != [] && !rules[0].component ==> Flatten(rules[0].children) != [])
        && WellFormed(rules[0].children) && WellFormed(rules[1..]))
  }

  lemma {:induction false} FlattenWellFormed(rules: seq<Rule>)
    requires WellFormed(rules)
    ensures forall i :: 0 <= i < |Flatten(rules)| ==>
      WellFormed(Flatten(rules)[i].children)
      && (Flatten(rules)[i].children != [] ==> Flatten(Flatten(rules)[i].children) != [])
  {
    if rules != [] {
      FlattenWellFormed(rules[1..]);
      if rules[0].component { FlattenWellFormed(rules[0].children); }
    }
  }

  predicate Extra(d: Setting, tag: nat) {
    !d.defined(tag) && tag >= USER_TAGS && !d.strict
  }

  /** One scope: the message, or one instance of a group. */
  function Scope(d: Setting, rules: seq<Rule>, group: bool, s: seq<Field>): (v: Verdict)
    requires WellFormed(rules)
    ensures v.Fine? ==> |v.rest| <= |s|
    ensures v.Fine? && group && s != [] && Flatten(rules) != [] && s[0].tag == Flatten(rules)[0].tag ==> |v.rest| < |s|
    decreases |s|, 1
  {
    FlattenWellFormed(rules);
    Fields(d, rules, Flatten(rules), group, s, {}, -1)
  }

  function Delimiter(flat: seq<Rule>): nat {
    if flat == [] then 0 else flat[0].tag
  }

  /** What is wrong with a field at this place of its scope. */
  function Fault(flat: seq<Rule>, group: bool, seen: set<nat>, last: int, tag: nat): Option<string> {
    if tag in seen then Some("13")
    else if group && (Rank(flat, tag) < last || (seen == {} && tag != Delimiter(flat))) then Some("15")
    else None
  }

  /** The fields of a scope from s on, with the tags already seen and the rank of the last one. */
  function Fields(d: Setting, rules: seq<Rule>, flat: seq<Rule>, group: bool, s: seq<Field>, seen: set<nat>,
        last: int): (v: Verdict)
    requires forall i :: 0 <= i < |flat| ==>
      WellFormed(flat[i].children) && (flat[i].children != [] ==> Flatten(flat[i].children) != [])
    ensures v.Fine? ==> |v.rest| <= |s|
    ensures v.Fine? && seen == {} && last == -1 && s != [] && flat != [] && s[0].tag == flat[0].tag ==> |v.rest| < |s|
    decreases |s|, 0
  {
    if s == [] then Finish(rules, group, s, seen)
    else
      var tag := s[0].tag;
      var k := Rank(flat, tag);
      if k < 0 then
        if !Extra(d, tag) then Finish(rules, group, s, seen)
        else if tag in seen then Bad(tag, "13")
        else Fields(d, rules, flat, group, s[1..], seen + {tag}, last)
      else if group && tag == Delimiter(flat) && tag in seen then Finish(rules, group, s, seen)
      else if Fault(flat, group, seen, last, tag).Some? then Bad(tag, Fault(flat, group, seen, last, tag).value)
      else if flat[k].children == [] then Fields(d, rules, flat, group, s[1..], seen + {tag}, k)
      else if CountOf(s[0].value) < 0 then Bad(tag, "5")
      else
        match Instances(d, flat[k].children, s[1..], CountOf(s[0].value), tag)
        case Bad(t, reason) => Bad(t, reason)
        case Fine(rest) =>
          if rest != [] && rest[0].tag == Flatten(flat[k].children)[0].tag then Bad(tag, "16")
          else Fields(d, rules, flat, group, rest, seen + {tag}, k)
  }

  /** Exactly n instances, each beginning with the delimiter. */
  function Instances(d: Setting, children: seq<Rule>, s: seq<Field>, n: int, tag: nat): (v: Verdict)
    requires WellFormed(children) && Flatten(children) != []
    ensures v.Fine? ==> |v.rest| <= |s|
    decreases |s|, 2
  {
    var flat := Flatten(children);
    if n <= 0 then Fine(s)
    else if s == [] || s[0].tag != flat[0].tag then
      if s != [] && HasTagged(flat, s[0].tag) then Bad(s[0].tag, "15") else Bad(tag, "16")
    else
      match Scope(d, children, true, s)
      case Bad(t, reason) => Bad(t, reason)
      case Fine(rest) => Instances(d, children, rest, n - 1, tag)
  }

  function Finish(rules: seq<Rule>, group: bool, s: seq<Field>, seen: set<nat>): (v: Verdict)
    ensures v.Fine? ==> v.rest == s
  {
    match Missing(rules, seen)
    case Some(tag) => Bad(tag, "1")
    case None => if !group && s != [] then Bad(s[0].tag, "15") else Fine(s)
  }
}
