/** The validator as the source runs it: one position moving over the message's fields, a set of seen
    tags and the last rank, a loop over the announced instances. */
module DictionaryLoops {
  import opened Decimal
  import opened Codec
  import opened Dictionary

  lemma Regroup(a: seq<Rule>, b: seq<Rule>, c: seq<Rule>)
    ensures a + (b + c) == a + b + c
  {
  }

  /** flatten: components expanded in place by appending to the output. */
  method FlattenRules(rules: seq<Rule>) returns (out: seq<Rule>)
    ensures out == Flatten(rules)
  {
    out := [];
    var i := 0;
    while i < |rules|
      invariant i <= |rules| && Flatten(rules) == out + Flatten(rules[i..])
    {
      var part := [rules[i]];
      if rules[i].component { part := FlattenRules(rules[i].children); }
      assert rules[i..][1..] == rules[i + 1..];
      Regroup(out, part, Flatten(rules[i + 1..]));
      out := out + part;
      i := i + 1;
    }
  }

  /** A position in the message stands for what is left of it. */
  predicate Stands(tags: seq<Field>, end: nat, fault: Option<(nat, string)>, v: Verdict) {
    end <= |tags|
    && match v
       case Fine(rest) => fault.None? && rest == tags[end..]
       case Bad(tag, reason) => fault == Some((tag, reason))
  }

  /** A group: its count, its instances, and no further instance after them. */
  function Group(d: Setting, children: seq<Rule>, s: seq<Field>, f: Field): Verdict
    requires WellFormed(children) && Flatten(children) != []
  {
    if CountOf(f.value) < 0 then Bad(f.tag, "5")
    else
      match Instances(d, children, s, CountOf(f.value), f.tag)
      case Bad(t, reason) => Bad(t, reason)
      case Fine(rest) => if rest != [] && rest[0].tag == Flatten(children)[0].tag then Bad(f.tag, "16") else Fine(rest)
  }

  predicate AllWell(flat: seq<Rule>) {
    forall i :: 0 <= i < |flat| ==>
      WellFormed(flat[i].children) && (flat[i].children != [] ==> Flatten(flat[i].children) != [])
  }

  /** What the first field of s does: it ends the scope, is a fault, or leads on. */
  datatype Move = Ends | Faulty(reason: string) | Leads(rank: int)

  function MoveOf(d: Setting, flat: seq<Rule>, group: bool, tag: nat, seen: set<nat>, last: int): (m: Move)
    ensures m.Leads? && m.rank >= 0 ==> m.rank < |flat|
  {
    var k := Rank(flat, tag);
    if k < 0 then if !Extra(d, tag) then Ends else if tag in seen then Faulty("13") else Leads(-1)
    else if group && tag == Delimiter(flat) && tag in seen then Ends
    else
      match Fault(flat, group, seen, last, tag)
      case Some(reason) => Faulty(reason)
      case None => Leads(k)
  }

  lemma {:induction false} FieldsMove(d: Setting, rules: seq<Rule>, flat: seq<Rule>, group: bool, s: seq<Field>,
        seen: set<nat>, last: int)
    requires AllWell(flat) && s != []
    ensures Fields(d, rules, flat, group, s, seen, last)
         == match MoveOf(d, flat, group, s[0].tag, seen, last)
            case Ends => Finish(rules, group, s, seen)
            case Faulty(reason) => Bad(s[0].tag, reason)
            case Leads(k) =>
              if k < 0 then Fields(d, rules, flat, group, s[1..], seen + {s[0].tag}, last)
              else if flat[k].children == [] then Fields(d, rules, flat, group, s[1..], seen + {s[0].tag}, k)
              else
                match Group(d, flat[k].children, s[1..], s[0])
                case Bad(t, reason) => Bad(t, reason)
                case Fine(rest) => Fields(d, rules, flat, group, rest, seen + {s[0].tag}, k)
  {
  }

  method Instance(d: Setting, tags: seq<Field>, pos: nat, rules: seq<Rule>, group: bool)
    returns (end: nat, fault: Option<(nat, string)>)
    requires pos <= |tags| && WellFormed(rules)
    ensures Stands(tags, end, fault, Scope(d, rules, group, tags[pos..]))
    decreases |tags| - pos, 1
  {
    var flat := FlattenRules(rules);
    FlattenWellFormed(rules);
    var seen: set<nat>, last := {}, -1;
    end, fault := pos, None;
    while end < |tags|
      invariant pos <= end <= |tags| && fault.None? && AllWell(flat)
      invariant Scope(d, rules, group, tags[pos..]) == Fields(d, rules, flat, group, tags[end..], seen, last)
      decreases |tags| - end
    {
      var f := tags[end];
      assert tags[end..][1..] == tags[end + 1..];
      FieldsMove(d, rules, flat, group, tags[end..], seen, last);
      var move := MoveOf(d, flat, group, f.tag, seen, last);
      if move.Ends? { break; }
      if move.Faulty? { return end, Some((f.tag, move.reason)); }
      seen, end := seen + {f.tag}, end + 1;
      if move.rank >= 0 {
        last := move.rank;
        if flat[last].children != [] {
          end, fault := GroupAt(d, tags, end, flat[last].children, f);
          if fault.Some? { return; }
        }
      }
    }
    var missing := Missing(rules, seen);
    if missing.Some? { return end, Some((missing.value, "1")); }
    if !group && end < |tags| { return end, Some((tags[end].tag, "15")); }
  }

  method GroupAt(d: Setting, tags: seq<Field>, pos: nat, children: seq<Rule>, f: Field)
    returns (end: nat, fault: Option<(nat, string)>)
    requires pos <= |tags| && WellFormed(children) && Flatten(children) != []
    ensures Stands(tags, end, fault, Group(d, children, tags[pos..], f)) && (fault.None? ==> pos <= end)
    decreases |tags| - pos, 3
  {
    var n := CountOf(f.value);
    if n < 0 { return pos, Some((f.tag, "5")); }
    end, fault := InstancesAt(d, tags, pos, children, n, f.tag);
    if fault.Some? { return; }
    var child := FlattenRules(children);
    if end < |tags| && tags[end].tag == child[0].tag { return end, Some((f.tag, "16")); }
  }

  method InstancesAt(d: Setting, tags: seq<Field>, pos: nat, children: seq<Rule>, n: int, tag: nat)
    returns (end: nat, fault: Option<(nat, string)>)
    requires pos <= |tags| && WellFormed(children) && Flatten(children) != []
    ensures Stands(tags, end, fault, Instances(d, children, tags[pos..], n, tag)) && (fault.None? ==> pos <= end)
    decreases |tags| - pos, 2
  {
    var child := FlattenRules(children);
    end, fault := pos, None;
    var i := 0;
    while i < n
      invariant 0 <= i && (i <= n || i == 0) && pos <= end <= |tags| && fault.None?
      invariant Instances(d, children, tags[pos..], n, tag) == Instances(d, children, tags[end..], n - i, tag)
      decreases n - i
    {
      if end == |tags| || tags[end].tag != child[0].tag {
        if end < |tags| && HasTagged(child, tags[end].tag) { return end, Some((tags[end].tag, "15")); }
        return end, Some((tag, "16"));
      }
      end, fault := Instance(d, tags, end, children, true);
      if fault.Some? { return; }
      i := i + 1;
    }
  }
}
