/** The grammar of nested repeating groups, and the proof that the validator accepts exactly its sentences. */
module GroupGrammar {
  import opened Codec
  import opened Dictionary

  /** A field of a scope; a group's NumInGroup field carries its instances. */
  datatype Item = Item(field: Field, instances: seq<Instance>)
  datatype Instance = Instance(items: seq<Item>)

  /** The fields of a scope in message order. */
  function Yield(items: seq<Item>): seq<Field> {
    if items == [] then [] else [items[0].field] + YieldAll(items[0].instances) + Yield(items[1..])
  }

  function YieldAll(groups: seq<Instance>): seq<Field> {
    if groups == [] then [] else Yield(groups[0].items) + YieldAll(groups[1..])
  }

  function Tags(items: seq<Item>): set<nat> {
    if items == [] then {} else {items[0].field.tag} + Tags(items[1..])
  }

  /** No tag twice, and none of those already seen. */
  predicate Distinct(items: seq<Item>, seen: set<nat>) {
    items == [] || (items[0].field.tag !in seen && Distinct(items[1..], seen + {items[0].field.tag}))
  }

  /** The fields the rules name come in the order of the rules. */
  predicate InRank(flat: seq<Rule>, items: seq<Item>, last: int) {
    items == []
    || (var k := Rank(flat, items[0].field.tag);
        if k < 0 then InRank(flat, items[1..], last) else last <= k && InRank(flat, items[1..], k))
  }

  predicate AnyTag(flat: seq<Rule>, seen: set<nat>) {
    exists i :: 0 <= i < |flat| && flat[i].tag in seen
  }

  /** Some field of the scope, inside a component or not, is there. */
  predicate Touched(rules: seq<Rule>, seen: set<nat>) {
    AnyTag(Flatten(rules), seen)
  }

  /** The tags that must be there when those seen are: required fields, and those of every component that
      is itself required or of which some field is there. */
  function Demanded(rules: seq<Rule>, seen: set<nat>): set<nat> {
    if rules == [] then {}
    else
      (if rules[0].component then
         if rules[0].required || Touched(rules[0].children, seen) then Demanded(rules[0].children, seen) else {}
       else if rules[0].required then {rules[0].tag}
       else {})
      + Demanded(rules[1..], seen)
  }

  lemma {:induction false} PresentIsTouched(rules: seq<Rule>, seen: set<nat>)
    ensures AnyPresent(rules, seen) <==> Touched(rules, seen)
    decreases rules
  {
    if rules != [] {
      var head := if rules[0].component then Flatten(rules[0].children) else [rules[0]];
      PresentIsTouched(rules[1..], seen);
      if rules[0].component { PresentIsTouched(rules[0].children, seen); } else { assert head[0] == rules[0]; }
      AnyParts(head, Flatten(rules[1..]), seen);
      assert Flatten(rules) == head + Flatten(rules[1..]);
    }
  }

  lemma AnyParts(a: seq<Rule>, b: seq<Rule>, seen: set<nat>)
    ensures AnyTag(a + b, seen) <==> AnyTag(a, seen) || AnyTag(b, seen)
  {
    if AnyTag(a, seen) {
      var i :| 0 <= i < |a| && a[i].tag in seen;
      assert (a + b)[i] == a[i];
    } else if AnyTag(b, seen) {
      var i :| 0 <= i < |b| && b[i].tag in seen;
      assert (a + b)[|a| + i] == b[i];
    }
  }

  /** The validator's search finds nothing missing exactly when everything demanded is there. */
  lemma {:induction false} MissingIffDemanded(rules: seq<Rule>, seen: set<nat>)
    ensures Missing(rules, seen).None? <==> Demanded(rules, seen) <= seen
    decreases rules
  {
    if rules != [] {
      MissingIffDemanded(rules[1..], seen);
      if rules[0].component {
        PresentIsTouched(rules[0].children, seen);
        MissingIffDemanded(rules[0].children, seen);
      }
    }
  }

  /** A scope: each field as its rule demands, no field twice, required fields present; in a group
      instance the delimiter comes first and the others follow in rank order. */
  predicate Scoped(d: Setting, rules: seq<Rule>, group: bool, items: seq<Item>)
    decreases items, 2
  {
    var flat := Flatten(rules);
    Entries(d, flat, items) && Distinct(items, {}) && Demanded(rules, Tags(items)) <= Tags(items)
    && (group ==> items != [] && items[0].field.tag == Delimiter(flat) && InRank(flat, items, -1))
  }

  predicate Entries(d: Setting, flat: seq<Rule>, items: seq<Item>)
    decreases items, 1
  {
    items == [] || (Entry(d, flat, items[0]) && Entries(d, flat, items[1..]))
  }

  /** A field the rules name carries exactly the number of instances it announces; a tolerated user
      field carries none. */
  predicate Entry(d: Setting, flat: seq<Rule>, item: Item)
    decreases item, 0
  {
    var k := Rank(flat, item.field.tag);
    if k < 0 then Extra(d, item.field.tag) && item.instances == []
    else if flat[k].children == [] then item.instances == []
    else |item.instances| == CountOf(item.field.value) && AllScoped(d, flat[k].children, item.instances)
  }

  predicate AllScoped(d: Setting, children: seq<Rule>, groups: seq<Instance>)
    decreases groups, 3
  {
    groups == [] || (Scoped(d, children, true, groups[0].items) && AllScoped(d, children, groups[1..]))
  }

  // ── Soundness ──────────────────────────────────────────────────────────────

  ghost predicate Sensible(flat: seq<Rule>) {
    forall i :: 0 <= i < |flat| ==>
      WellFormed(flat[i].children) && (flat[i].children != [] ==> Flatten(flat[i].children) != [])
  }

  /** items continue a scope that has seen these tags. */
  predicate Continues(d: Setting, rules: seq<Rule>, group: bool, items: seq<Item>, seen: set<nat>, last: int) {
    Entries(d, Flatten(rules), items) && Distinct(items, seen) && Missing(rules, seen + Tags(items)).None?
    && (group ==> InRank(Flatten(rules), items, last))
  }

  lemma ConsContinues(d: Setting, rules: seq<Rule>, group: bool, item: Item, more: seq<Item>, seen: set<nat>, last: int)
    requires Entry(d, Flatten(rules), item) && item.field.tag !in seen
    requires var k := Rank(Flatten(rules), item.field.tag);
             (group && k >= 0 ==> last <= k)
             && Continues(d, rules, group, more, seen + {item.field.tag}, if k < 0 then last else k)
    ensures Continues(d, rules, group, [item] + more, seen, last)
  {
    var items := [item] + more;
    assert items[0] == item && items[1..] == more;
    assert seen + {item.field.tag} + Tags(more) == seen + Tags(items);
  }

  lemma YieldCons(item: Item, more: seq<Item>)
    ensures Yield([item] + more) == [item.field] + YieldAll(item.instances) + Yield(more)
  {
    assert ([item] + more)[1..] == more;
  }

  /** The scope ends here: the message does, or the next field belongs to no rule of this scope, or it
      is the delimiter that opens the next instance. */
  predicate Stops(d: Setting, flat: seq<Rule>, group: bool, s: seq<Field>, seen: set<nat>) {
    s == [] || (Rank(flat, s[0].tag) < 0 && !Extra(d, s[0].tag))
    || (group && s[0].tag == Delimiter(flat) && s[0].tag in seen)
  }

  lemma StopFields(d: Setting, rules: seq<Rule>, group: bool, s: seq<Field>, seen: set<nat>, last: int)
    requires Sensible(Flatten(rules)) && Stops(d, Flatten(rules), group, s, seen)
    ensures Fields(d, rules, Flatten(rules), group, s, seen, last) == Finish(rules, group, s, seen)
    ensures Fields(d, rules, Flatten(rules), group, s, seen, last).Fine? ==> Continues(d, rules, group, [], seen, last)
  {
    assert seen + Tags([]) == seen;
  }

  lemma {:induction false} SoundFields(d: Setting, rules: seq<Rule>, group: bool, s: seq<Field>, seen: set<nat>,
        last: int)
    returns (items: seq<Item>)
    requires Sensible(Flatten(rules)) && Fields(d, rules, Flatten(rules), group, s, seen, last).Fine?
    ensures Continues(d, rules, group, items, seen, last)
    ensures s == Yield(items) + Fields(d, rules, Flatten(rules), group, s, seen, last).rest
    ensures items == [] ==> Fields(d, rules, Flatten(rules), group, s, seen, last).rest == s
    decreases |s|, 0
  {
    var flat := Flatten(rules);
    if Stops(d, flat, group, s, seen) {
      items := [];
      StopFields(d, rules, group, s, seen, last);
    } else {
      var tag, k := s[0].tag, Rank(flat, s[0].tag);
      var groups, rest := [], s[1..];
      if k >= 0 && flat[k].children != [] {
        rest := Instances(d, flat[k].children, s[1..], CountOf(s[0].value), tag).rest;
        groups := SoundInstances(d, flat[k].children, s[1..], CountOf(s[0].value), tag);
      }
      var item, next := Item(s[0], groups), if k < 0 then last else k;
      assert Fields(d, rules, flat, group, s, seen, last) == Fields(d, rules, flat, group, rest, seen + {tag}, next);
      var more := SoundFields(d, rules, group, rest, seen + {tag}, next);
      items := [item] + more;
      ConsContinues(d, rules, group, item, more, seen, last);
      YieldCons(item, more);
      Regroup(s, groups, Yield(more), rest, Fields(d, rules, flat, group, s, seen, last).rest);
    }
  }

  lemma Regroup(s: seq<Field>, groups: seq<Instance>, more: seq<Field>, rest: seq<Field>, end: seq<Field>)
    requires s != [] && s[1..] == YieldAll(groups) + rest && rest == more + end
    ensures s == [s[0]] + YieldAll(groups) + more + end
  {
  }

  lemma AllScopedCons(d: Setting, children: seq<Rule>, first: seq<Item>, more: seq<Instance>)
    requires Scoped(d, children, true, first) && AllScoped(d, children, more)
    ensures AllScoped(d, children, [Instance(first)] + more)
    ensures YieldAll([Instance(first)] + more) == Yield(first) + YieldAll(more)
  {
    assert ([Instance(first)] + more)[1..] == more;
  }

  lemma Append3(a: seq<Field>, b: seq<Field>, c: seq<Field>)
    ensures a + (b + c) == a + b + c
  {
  }

  lemma {:induction false} SoundInstances(d: Setting, children: seq<Rule>, s: seq<Field>, n: int, tag: nat)
    returns (groups: seq<Instance>)
    requires WellFormed(children) && Flatten(children) != [] && n >= 0 && Instances(d, children, s, n, tag).Fine?
    ensures |groups| == n && AllScoped(d, children, groups)
    ensures s == YieldAll(groups) + Instances(d, children, s, n, tag).rest
    decreases |s|, 2
  {
    groups := [];
    if n > 0 {
      var rest := Scope(d, children, true, s).rest;
      var first := SoundScope(d, children, true, s);
      var more := SoundInstances(d, children, rest, n - 1, tag);
      groups := [Instance(first)] + more;
      AllScopedCons(d, children, first, more);
      Append3(Yield(first), YieldAll(more), Instances(d, children, s, n, tag).rest);
    }
  }

  lemma {:induction false} SoundScope(d: Setting, rules: seq<Rule>, group: bool, s: seq<Field>)
    returns (items: seq<Item>)
    requires WellFormed(rules) && Scope(d, rules, group, s).Fine?
    requires group ==> s != [] && Flatten(rules) != [] && s[0].tag == Flatten(rules)[0].tag
    ensures Scoped(d, rules, group, items) && s == Yield(items) + Scope(d, rules, group, s).rest
    decreases |s|, 1
  {
    FlattenWellFormed(rules);
    items := SoundFields(d, rules, group, s, {}, -1);
    assert {} + Tags(items) == Tags(items);
    MissingIffDemanded(rules, Tags(items));
    if group {
      assert items != [];
      assert Yield(items)[0] == items[0].field;
    }
  }

  // ── Completeness ───────────────────────────────────────────────────────────

  /** The tags of one scope. */
  function LevelTags(rules: seq<Rule>): set<nat> {
    if rules == [] then {}
    else (if rules[0].component then LevelTags(rules[0].children) else {rules[0].tag}) + LevelTags(rules[1..])
  }

  /** The tags of a scope and of all groups nested in it. */
  function AllTags(rules: seq<Rule>): set<nat> {
    if rules == [] then {}
    else (if rules[0].component then {} else {rules[0].tag}) + AllTags(rules[0].children) + AllTags(rules[1..])
  }

  /** No tag nested in a group is also a tag of the scope the group belongs to, at any depth. */
  predicate Separate(level: set<nat>, rules: seq<Rule>)
    decreases rules
  {
    rules == []
    || ((if rules[0].component then Separate(level, rules[0].children)
         else AllTags(rules[0].children) !! level && Separate(LevelTags(rules[0].children), rules[0].children))
        && Separate(level, rules[1..]))
  }

  predicate Apart(rules: seq<Rule>) {
    WellFormed(rules) && Separate(LevelTags(rules), rules)
  }

  /** What Separate says of one rule of the flattened scope. */
  predicate Set(level: set<nat>, all: set<nat>, r: Rule) {
    WellFormed(r.children) && (r.children != [] ==> Flatten(r.children) != [])
    && r.tag in all && AllTags(r.children) !! level && AllTags(r.children) <= all
    && Separate(LevelTags(r.children), r.children)
  }

  lemma {:induction false} FlatSet(level: set<nat>, rules: seq<Rule>)
    requires WellFormed(rules) && Separate(level, rules)
    ensures forall i :: 0 <= i < |Flatten(rules)| ==>
      Set(level, AllTags(rules), Flatten(rules)[i]) && Flatten(rules)[i].tag in LevelTags(rules)
  {
    if rules != [] {
      FlatSet(level, rules[1..]);
      if rules[0].component { FlatSet(level, rules[0].children); }
    }
  }

  lemma NamedWithin(rules: seq<Rule>, tag: nat)
    requires Apart(rules) && Rank(Flatten(rules), tag) >= 0
    ensures tag in LevelTags(rules) && tag in AllTags(rules)
  {
    FlatSet(LevelTags(rules), rules);
  }

  /** What may come after a scope: nothing, or in a group a field from outside it or the next delimiter. */
  predicate Follows(rules: seq<Rule>, group: bool, rest: seq<Field>) {
    rest == [] || (group && (rest[0].tag !in AllTags(rules) || rest[0].tag == Delimiter(Flatten(rules))))
  }

  /** The field after a group's instances is not one of the group's own. */
  lemma NextOutside(d: Setting, rules: seq<Rule>, group: bool, k: nat, items: seq<Item>, rest: seq<Field>)
    requires d.strict && Apart(rules) && k < |Flatten(rules)| && Entries(d, Flatten(rules), items)
    requires Flatten(rules) != [] && Follows(rules, group, rest)
    ensures var next := Yield(items) + rest; next == [] || next[0].tag !in AllTags(Flatten(rules)[k].children)
  {
    var flat := Flatten(rules);
    FlatSet(LevelTags(rules), rules);
    assert Set(LevelTags(rules), AllTags(rules), flat[k]);
    var next := Yield(items) + rest;
    if items != [] {
      assert next[0] == items[0].field;
      NamedWithin(rules, items[0].field.tag);
    } else {
      assert next == rest;
      if rest != [] && rest[0].tag == Delimiter(flat) { assert flat[0].tag in LevelTags(rules); }
    }
  }

  lemma CompleteStop(d: Setting, rules: seq<Rule>, group: bool, rest: seq<Field>, seen: set<nat>, last: int)
    requires d.strict && Apart(rules) && Sensible(Flatten(rules)) && Continues(d, rules, group, [], seen, last)
    requires Follows(rules, group, rest) && (group ==> Delimiter(Flatten(rules)) in seen)
    ensures Fields(d, rules, Flatten(rules), group, rest, seen, last) == Fine(rest)
  {
    assert seen + Tags([]) == seen;
    if rest != [] && Rank(Flatten(rules), rest[0].tag) >= 0 { NamedWithin(rules, rest[0].tag); }
    StopFields(d, rules, group, rest, seen, last);
  }

  lemma Headed(f: Field, a: seq<Field>, b: seq<Field>, s: seq<Field>)
    requires s == [f] + a + b
    ensures s != [] && s[0] == f && s[1..] == a + b && (a == [] ==> s[1..] == b)
  {
  }

  /** The first field of a scope leads where its rule says. */
  lemma {:induction false} FieldStep(d: Setting, rules: seq<Rule>, group: bool, item: Item, next: seq<Field>,
        seen: set<nat>, last: int)
    requires d.strict && Sensible(Flatten(rules)) && Entry(d, Flatten(rules), item) && item.field.tag !in seen
    requires group ==> last <= Rank(Flatten(rules), item.field.tag)
    requires group && seen == {} ==> item.field.tag == Delimiter(Flatten(rules))
    requires var k := Rank(Flatten(rules), item.field.tag);
             k >= 0 && ChildrenAt(rules, k) != [] ==>
               Instances(d, ChildrenAt(rules, k), YieldAll(item.instances) + next, |item.instances|, item.field.tag)
               == Fine(next)
               && (next == [] || next[0].tag != Flatten(ChildrenAt(rules, k))[0].tag)
    ensures var k := Rank(Flatten(rules), item.field.tag);
            k >= 0
            && Fields(d, rules, Flatten(rules), group, [item.field] + YieldAll(item.instances) + next, seen, last)
                      == Fields(d, rules, Flatten(rules), group, next, seen + {item.field.tag}, k)
  {
    var s := [item.field] + YieldAll(item.instances) + next;
    Headed(item.field, YieldAll(item.instances), next, s);
    FieldTaken(d, rules, group, s, item, next, seen, last);
  }

  lemma {:induction false} FieldTaken(d: Setting, rules: seq<Rule>, group: bool, s: seq<Field>, item: Item,
        next: seq<Field>, seen: set<nat>, last: int)
    requires s != [] && s[0] == item.field && (item.instances == [] ==> s[1..] == next)
    requires d.strict && Sensible(Flatten(rules)) && Entry(d, Flatten(rules), item) && item.field.tag !in seen
    requires group ==> last <= Rank(Flatten(rules), item.field.tag)
    requires group && seen == {} ==> item.field.tag == Delimiter(Flatten(rules))
    requires var k := Rank(Flatten(rules), item.field.tag);
             k >= 0 && ChildrenAt(rules, k) != [] ==>
               Instances(d, ChildrenAt(rules, k), s[1..], |item.instances|, item.field.tag) == Fine(next)
               && (next == [] || next[0].tag != Flatten(ChildrenAt(rules, k))[0].tag)
    ensures var k := Rank(Flatten(rules), item.field.tag);
            k >= 0 && Fields(d, rules, Flatten(rules), group, s, seen, last)
                      == Fields(d, rules, Flatten(rules), group, next, seen + {item.field.tag}, k)
  {
  }

  function ChildrenAt(rules: seq<Rule>, k: nat): seq<Rule>
    requires k < |Flatten(rules)|
  {
    Flatten(rules)[k].children
  }

  lemma HeadContinues(d: Setting, rules: seq<Rule>, group: bool, items: seq<Item>, seen: set<nat>, last: int)
    requires d.strict && items != [] && Continues(d, rules, group, items, seen, last)
    ensures var item, k := items[0], Rank(Flatten(rules), items[0].field.tag);
            k >= 0 && item.field.tag !in seen && (group ==> last <= k) && Entry(d, Flatten(rules), item)
            && (ChildrenAt(rules, k) != [] ==> AllScoped(d, ChildrenAt(rules, k), item.instances))
            && Continues(d, rules, group, items[1..], seen + {item.field.tag}, k)
            && Entries(d, Flatten(rules), items[1..])
  {
    assert Entry(d, Flatten(rules), items[0]);
    assert Rank(Flatten(rules), items[0].field.tag) >= 0;
    assert seen + {items[0].field.tag} + Tags(items[1..]) == seen + Tags(items);
  }

  lemma UnfoldYield(items: seq<Item>, rest: seq<Field>)
    requires items != []
    ensures Yield(items) + rest == [items[0].field] + YieldAll(items[0].instances) + (Yield(items[1..]) + rest)
  {
  }

  lemma {:induction false} CompleteFields(d: Setting, rules: seq<Rule>, group: bool, items: seq<Item>, rest: seq<Field>,
                                          seen: set<nat>, last: int)
    requires d.strict && Apart(rules) && Sensible(Flatten(rules)) && Continues(d, rules, group, items, seen, last)
    requires Follows(rules, group, rest)
    requires group && Delimiter(Flatten(rules)) !in seen ==>
               seen == {} && items != [] && items[0].field.tag == Delimiter(Flatten(rules))
    ensures Fields(d, rules, Flatten(rules), group, Yield(items) + rest, seen, last) == Fine(rest)
    decreases items, 0
  {
    var flat := Flatten(rules);
    if items == [] {
      assert Yield(items) + rest == rest;
      CompleteStop(d, rules, group, rest, seen, last);
    } else {
      var item, more := items[0], items[1..];
      var k := Rank(flat, item.field.tag);
      var next := Yield(more) + rest;
      HeadContinues(d, rules, group, items, seen, last);
      FlatSet(LevelTags(rules), rules);
      assert Set(LevelTags(rules), AllTags(rules), flat[k]);
      if flat[k].children != [] {
        NextOutside(d, rules, group, k, more, rest);
        CompleteInstances(d, flat[k].children, item.instances, next, item.field.tag);
        DelimiterWithin(flat[k].children);
      }
      FieldStep(d, rules, group, item, next, seen, last);
      CompleteFields(d, rules, group, more, rest, seen + {item.field.tag}, k);
      UnfoldYield(items, rest);
    }
  }

  lemma DelimiterWithin(children: seq<Rule>)
    requires WellFormed(children) && Separate(LevelTags(children), children) && Flatten(children) != []
    ensures Flatten(children)[0].tag in AllTags(children)
  {
    FlatSet(LevelTags(children), children);
  }

  lemma {:induction false} CompleteInstances(d: Setting, children: seq<Rule>, groups: seq<Instance>, rest: seq<Field>,
        tag: nat)
    requires d.strict && Apart(children) && Flatten(children) != [] && AllScoped(d, children, groups)
    requires rest == [] || rest[0].tag !in AllTags(children)
    ensures Instances(d, children, YieldAll(groups) + rest, |groups|, tag) == Fine(rest)
    decreases groups, 3
  {
    if groups == [] {
      assert YieldAll(groups) + rest == rest;
    } else {
      var first, next := groups[0].items, YieldAll(groups[1..]) + rest;
      assert YieldAll(groups) + rest == Yield(first) + next;
      CompleteInstances(d, children, groups[1..], rest, tag);
      InstanceFollows(d, children, groups[1..], rest);
      CompleteScope(d, children, true, first, next);
      assert (Yield(first) + next)[0] == first[0].field;
    }
  }

  lemma {:induction false} InstanceFollows(d: Setting, children: seq<Rule>, groups: seq<Instance>, rest: seq<Field>)
    requires AllScoped(d, children, groups) && (rest == [] || rest[0].tag !in AllTags(children))
    ensures Follows(children, true, YieldAll(groups) + rest)
  {
    if groups == [] {
      assert YieldAll(groups) + rest == rest;
    } else {
      var first := groups[0].items;
      assert Scoped(d, children, true, first) && first != [];
      assert Yield(first) != [] && Yield(first)[0] == first[0].field;
      assert YieldAll(groups) + rest == Yield(first) + (YieldAll(groups[1..]) + rest);
    }
  }

  lemma {:induction false} CompleteScope(d: Setting, rules: seq<Rule>, group: bool, items: seq<Item>, rest: seq<Field>)
    requires d.strict && Apart(rules) && Scoped(d, rules, group, items) && Follows(rules, group, rest)
    ensures Scope(d, rules, group, Yield(items) + rest) == Fine(rest)
    decreases items, 2
  {
    FlattenWellFormed(rules);
    assert {} + Tags(items) == Tags(items);
    MissingIffDemanded(rules, Tags(items));
    CompleteFields(d, rules, group, items, rest, {}, -1);
  }

  /** In strict mode, for rules whose nested tags are set apart, a message is accepted if and only if its
      fields are the yield of some tree of the grammar. */
  lemma AcceptsExactlyTheGrammar(d: Setting, rules: seq<Rule>, s: seq<Field>)
    requires d.strict && Apart(rules)
    ensures Scope(d, rules, false, s).Fine? <==> exists items :: Scoped(d, rules, false, items) && Yield(items) == s
  {
    if Scope(d, rules, false, s).Fine? {
      var items := SoundScope(d, rules, false, s);
      FlattenWellFormed(rules);
      WholeMessage(d, rules, s, {}, -1);
      assert Yield(items) + [] == Yield(items);
    }
    forall items | Scoped(d, rules, false, items) && Yield(items) == s ensures Scope(d, rules, false, s).Fine? {
      CompleteScope(d, rules, false, items, []);
      assert Yield(items) + [] == Yield(items);
    }
  }

  /** At the top level acceptance means that nothing is left over. */
  lemma {:induction false} WholeMessage(d: Setting, rules: seq<Rule>, s: seq<Field>, seen: set<nat>, last: int)
    requires Sensible(Flatten(rules))
    ensures var v := Fields(d, rules, Flatten(rules), false, s, seen, last); v.Fine? ==> v.rest == []
    decreases |s|
  {
    var flat := Flatten(rules);
    if s != [] && Fields(d, rules, flat, false, s, seen, last).Fine? {
      var tag, k := s[0].tag, Rank(flat, s[0].tag);
      if k < 0 {
        WholeMessage(d, rules, s[1..], seen + {tag}, last);
      } else if flat[k].children == [] {
        WholeMessage(d, rules, s[1..], seen + {tag}, k);
      } else {
        WholeMessage(d, rules, Instances(d, flat[k].children, s[1..], CountOf(s[0].value), tag).rest, seen + {tag}, k);
      }
    }
  }
}
