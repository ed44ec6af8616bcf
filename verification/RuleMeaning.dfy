/** Packs and overrides under first-match routing: what new rules decide, what the others
    keep deciding, and that applying twice is applying once. */
module RuleMeaning {
  import opened OrderedTable
  import opened RulePacks
  import opened Wrappers

  /** How the client reads rules: which traffic a rule matches and what it then does. */
  datatype Router<!T> = Router(matches: (string, T) -> bool, action: string -> string)

  /** The action of the first rule that matches. */
  function Decision<T>(router: Router<T>, rules: seq<string>, x: T): Option<string> {
    if rules == [] then None
    else if router.matches(rules[0], x) then Some(router.action(rules[0]))
    else Decision(router, rules[1..], x)
  }

  predicate Decides<T>(router: Router<T>, rules: seq<string>, x: T) {
    exists r :: r in rules && router.matches(r, x)
  }

  lemma {:induction false} DecisionOfConcat<T>(router: Router<T>, a: seq<string>, b: seq<string>, x: T)
    ensures Decision(router, a + b, x) == if Decides(router, a, x) then Decision(router, a, x)
        else Decision(router, b, x)
    ensures Decides(router, a + b, x) <==> Decides(router, a, x) || Decides(router, b, x)
    ensures Decision(router, a, x).Some? <==> Decides(router, a, x)
  {
    if a == [] {
      assert a + b == b;
    } else {
      assert (a + b)[1..] == a[1..] + b;
      DecisionOfConcat(router, a[1..], b, x);
      assert a == [a[0]] + a[1..];
    }
    assert forall r :: r in a + b <==> r in a || r in b;
  }

  /** Rules already among the silent ones may be dropped. */
  lemma {:induction false} DecisionOfExcept<T>(router: Router<T>, rules: seq<string>, removed: seq<string>, x: T)
    requires !Decides(router, removed, x)
    ensures Decision(router, Except(rules, removed), x) == Decision(router, rules, x)
  {
    if rules != [] {
      var front, last := rules[..|rules| - 1], rules[|rules| - 1];
      DecisionOfExcept(router, front, removed, x);
      assert rules == front + [last];
      DecisionOfConcat(router, front, [last], x);
      DecisionOfConcat(router, Except(front, removed), [last], x);
      DecisionOfConcat(router, Except(front, removed), [], x);
    }
  }

  /** New rules come first, in their order; all other traffic keeps its decision although
      duplicates are removed. */
  lemma NewRulesFirst<T>(router: Router<T>, rules: seq<string>, added: seq<string>, x: T)
    ensures Decision(router, PrependedRules(rules, added), x)
            == if Decides(router, added, x) then Decision(router, added, x) else Decision(router, rules, x)
  {
    DecisionOfConcat(router, added, Except(rules, added), x);
    if !Decides(router, added, x) {
      DecisionOfExcept(router, rules, added, x);
    }
  }

  // ------------------------------------------------------------------ deduplication

  lemma {:induction false} OntoMeans(out: seq<string>, s: seq<string>)
    requires Distinct(out)
    ensures Distinct(DedupedOnto(out, s)) && out <= DedupedOnto(out, s)
    ensures forall x :: x in DedupedOnto(out, s) <==> x in out || x in s
    decreases |s|
  {
    if s != [] {
      OntoMeans(if s[0] in out then out else out + [s[0]], s[1..]);
      assert s == [s[0]] + s[1..];
    }
  }

  /** Deduplication keeps every decision: the first occurrence of each rule stays, in order. */
  lemma {:induction false} DecisionOfOnto<T>(router: Router<T>, out: seq<string>, s: seq<string>, x: T)
    ensures Decision(router, DedupedOnto(out, s), x) == Decision(router, out + s, x)
    decreases |s|
  {
    if s == [] {
      assert out + s == out;
    } else {
      DecisionOfConcat(router, out, s, x);
      if s[0] in out {
        DecisionOfOnto(router, out, s[1..], x);
        DecisionOfConcat(router, out, s[1..], x);
      } else {
        DecisionOfOnto(router, out + [s[0]], s[1..], x);
        assert out + [s[0]] + s[1..] == out + s;
      }
    }
  }

  lemma {:induction false} OntoConcat(out: seq<string>, a: seq<string>, b: seq<string>)
    ensures DedupedOnto(out, a + b) == DedupedOnto(DedupedOnto(out, a), b)
    decreases |a|
  {
    if a == [] {
      assert a + b == b;
    } else {
      assert (a + b)[1..] == a[1..] + b;
      OntoConcat(if a[0] in out then out else out + [a[0]], a[1..], b);
    }
  }

  lemma {:induction false} OntoDistinct(out: seq<string>, s: seq<string>)
    requires Distinct(out + s)
    ensures DedupedOnto(out, s) == out + s
    decreases |s|
  {
    if s == [] {
      assert out + s == out;
    } else {
      assert (out + s)[|out|] == s[0];
      assert s[0] !in out by {
        assert forall i :: 0 <= i < |out| ==> (out + s)[i] == out[i];
      }
      assert out + [s[0]] + s[1..] == out + s;
      OntoDistinct(out + [s[0]], s[1..]);
    }
  }

  lemma {:induction false} OntoKnown(out: seq<string>, s: seq<string>)
    requires forall x :: x in s ==> x in out
    ensures DedupedOnto(out, s) == out
    decreases |s|
  {
    if s != [] {
      OntoKnown(out, s[1..]);
    }
  }

  /** Prepending the same items to an already prepended list changes nothing. */
  lemma DedupedTwice(added: seq<string>, rest: seq<string>)
    ensures Deduped(added + Deduped(added + rest)) == Deduped(added + rest)
  {
    hide DedupedOnto, Distinct;
    var front := Deduped(added);
    OntoMeans([], added);
    OntoConcat([], added, rest);
    var all := DedupedOnto(front, rest);
    OntoMeans(front, rest);
    var tail := all[|front|..];
    assert all == front + tail;
    OntoConcat([], added, all);
    OntoConcat(front, front, tail);
    OntoKnown(front, front);
    OntoDistinct(front, tail);
  }

  // --------------------------------------------------------------- stripped strings

  ghost predicate Clean(s: seq<string>) {
    forall i :: 0 <= i < |s| ==> s[i] != "" && Stripped(s[i]) == s[i]
  }

  lemma {:induction false} LeftStrippedStarts(s: string)
    ensures LeftStripped(s) == "" || !Blank(LeftStripped(s)[0])
  {
    if s != "" && Blank(s[0]) {
      LeftStrippedStarts(s[1..]);
    }
  }

  lemma {:induction false} RightStrippedKeeps(s: string)
    requires s == "" || !Blank(s[0])
    ensures var r := RightStripped(s);
            (r == "" || (!Blank(r[0]) && !Blank(r[|r| - 1]))) && LeftStripped(r) == r && RightStripped(r) == r
  {
    if s != "" && Blank(s[|s| - 1]) {
      RightStrippedKeeps(s[..|s| - 1]);
    }
  }

  /** What is cut off are blanks at the ends: spaces, tabs and line ends. */
  ghost predicate Blanks(s: string) {
    forall i :: 0 <= i < |s| ==> s[i] == ' ' || s[i] == '\t' || s[i] == '\n' || s[i] == '\r'
  }

  lemma {:induction false} LeftStrippedMeans(s: string)
    ensures exists pre :: Blanks(pre) && s == pre + LeftStripped(s)
  {
    if s != "" && Blank(s[0]) {
      LeftStrippedMeans(s[1..]);
      var pre :| Blanks(pre) && s[1..] == pre + LeftStripped(s[1..]);
      assert s == [s[0]] + pre + LeftStripped(s) && Blanks([s[0]] + pre);
    } else {
      assert s == [] + LeftStripped(s) && Blanks([]);
    }
  }

  lemma {:induction false} RightStrippedMeans(s: string)
    ensures exists post :: Blanks(post) && s == RightStripped(s) + post
  {
    if s != "" && Blank(s[|s| - 1]) {
      RightStrippedMeans(s[..|s| - 1]);
      var post :| Blanks(post) && s[..|s| - 1] == RightStripped(s[..|s| - 1]) + post;
      assert s == RightStripped(s) + (post + [s[|s| - 1]]) && Blanks(post + [s[|s| - 1]]);
    } else {
      assert s == RightStripped(s) + [] && Blanks([]);
    }
  }

  /** Stripping cuts exactly the blanks at both ends. */
  lemma StrippedMeans(s: string)
    ensures exists pre, post :: Blanks(pre) && Blanks(post) && s == pre + Stripped(s) + post
    ensures Stripped(s) != "" ==> !Blanks([Stripped(s)[0]]) && !Blanks([Stripped(s)[|Stripped(s)| - 1]])
  {
    LeftStrippedMeans(s);
    var left := LeftStripped(s);
    var pre :| Blanks(pre) && s == pre + left;
    RightStrippedMeans(left);
    var post :| Blanks(post) && left == Stripped(s) + post;
    assert s == pre + Stripped(s) + post;
    LeftStrippedStarts(s);
    RightStrippedKeeps(left);
    if Stripped(s) != "" {
      NotBlankMeans(Stripped(s)[0]);
      NotBlankMeans(Stripped(s)[|Stripped(s)| - 1]);
    }
  }

  lemma NotBlankMeans(c: char)
    ensures Blanks([c]) <==> Blank(c)
  {
    assert [c][0] == c;
  }

  lemma StringOfOne(x: string)
    ensures StringList([x]) == if Stripped(x) == "" then [] else [Stripped(x)]
  {
    assert [x][..0] == [] && StringList([]) == [];
  }

  /** A list is read item by item, in order, stripped and without the empty ones. */
  lemma {:induction false} StringListMeans(a: seq<string>, b: seq<string>, x: string)
    ensures StringList([]) == []
    ensures StringList([x]) == if Stripped(x) == "" then [] else [Stripped(x)]
    ensures StringList(a + b) == StringList(a) + StringList(b)
    decreases |b|
  {
    hide Stripped;
    StringOfOne(x);
    if b == [] {
      assert a + b == a && StringList(a) + [] == StringList(a);
    } else {
      assert (a + b)[..|a + b| - 1] == a + b[..|b| - 1];
      StringListMeans(a, b[..|b| - 1], x);
    }
  }

  /** Deduplicating keeps the items, each once, in the order of their first occurrences: a
      longer list only adds at the end. */
  lemma DedupedMeans(s: seq<string>, k: nat)
    requires k <= |s|
    ensures Distinct(Deduped(s)) && forall x :: x in Deduped(s) <==> x in s
    ensures Deduped(s[..k]) <= Deduped(s)
  {
    assert s == s[..k] + s[k..];
    OntoMeans([], s);
    OntoMeans([], s[..k]);
    OntoConcat([], s[..k], s[k..]);
    OntoMeans(Deduped(s[..k]), s[k..]);
  }

  lemma {:induction false} StringListIsClean(items: seq<string>)
    ensures Clean(StringList(items))
  {
    if items != [] {
      StringListIsClean(items[..|items| - 1]);
      LeftStrippedStarts(items[|items| - 1]);
      RightStrippedKeeps(LeftStripped(items[|items| - 1]));
    }
  }

  lemma {:induction false} CleanIsKept(s: seq<string>)
    requires Clean(s)
    ensures StringList(s) == s
  {
    if s != [] {
      CleanIsKept(s[..|s| - 1]);
      assert s == s[..|s| - 1] + [s[|s| - 1]];
    }
  }

  lemma CleanMembers(s: seq<string>, t: seq<string>)
    requires Clean(s) && forall x :: x in t ==> x in s
    ensures Clean(t)
  {
    forall i | 0 <= i < |t| ensures t[i] != "" && Stripped(t[i]) == t[i] {
      assert t[i] in s;
    }
  }

  lemma PrependedIsClean(current: seq<string>, added: seq<string>)
    requires Clean(added)
    ensures Clean(PrependedList(current, added))
  {
    StringListIsClean(current);
    OntoMeans([], added + StringList(current));
    CleanMembers(added + StringList(current), PrependedList(current, added));
  }

  lemma PrependedListTwice(current: seq<string>, added: seq<string>)
    requires Clean(added)
    ensures PrependedList(PrependedList(current, added), added) == PrependedList(current, added)
  {
    PrependedIsClean(current, added);
    CleanIsKept(PrependedList(current, added));
    DedupedTwice(added, StringList(current));
  }

  lemma {:induction false} ExceptTwice(s: seq<string>, removed: seq<string>)
    ensures forall x :: x in Except(s, removed) <==> x in s && x !in removed
    ensures Except(Except(s, removed), removed) == Except(s, removed)
  {
    if s != [] {
      var front, last := s[..|s| - 1], s[|s| - 1];
      ExceptTwice(front, removed);
      assert s == front + [last];
      if last !in removed {
        var e := Except(front, removed);
        assert (e + [last])[..|e|] == e;
      } else {
        assert Except(s, removed) == Except(front, removed);
      }
    }
  }

  lemma {:induction false} ExceptConcat(a: seq<string>, b: seq<string>, removed: seq<string>)
    ensures Except(a + b, removed) == Except(a, removed) + Except(b, removed)
    decreases |b|
  {
    if b == [] {
      assert a + b == a && Except(a, removed) + [] == Except(a, removed);
    } else {
      assert (a + b)[..|a + b| - 1] == a + b[..|b| - 1];
      ExceptConcat(a, b[..|b| - 1], removed);
    }
  }

  lemma {:induction false} ExceptAll(s: seq<string>, removed: seq<string>)
    requires forall x :: x in s ==> x in removed
    ensures Except(s, removed) == []
  {
    if s != [] {
      ExceptAll(s[..|s| - 1], removed);
    }
  }

  /** Applying a pack, or a user's overrides, twice equals applying it once. */
  lemma AppliedTwice(cfg: Config, l: Lists)
    ensures Applied(Applied(cfg, l), l) == Applied(cfg, l)
  {
    hide PrependedList, StringList, Except;
    var n := Normalized(l);
    StringListIsClean(l.fakeIpFilter);
    StringListIsClean(l.routeExclude);
    if n.rules != [] {
      ExceptAll(n.rules, n.rules);
      ExceptConcat(n.rules, Except(cfg.rules, n.rules), n.rules);
      ExceptTwice(cfg.rules, n.rules);
      assert [] + Except(cfg.rules, n.rules) == Except(cfg.rules, n.rules);
    }
    if n.fakeIpFilter != [] {
      PrependedListTwice(cfg.fakeIpFilter, n.fakeIpFilter);
    }
    if n.routeExclude != [] {
      PrependedListTwice(cfg.routeExclude, n.routeExclude);
    }
  }

  /** The items of both, each once, the first list's first. */
  ghost predicate Joins(all: seq<string>, a: seq<string>, b: seq<string>) {
    && Distinct(all) && (forall y :: y in all <==> y in a || y in b)
    && Deduped(a) <= all
  }

  lemma JoinedInOrder(a: seq<string>, b: seq<string>)
    ensures Joins(Deduped(a + b), a, b)
  {
    hide DedupedOnto;
    DedupedMeans(a + b, |a|);
    assert (a + b)[..|a|] == a;
  }

  /** What a stored pack leaves in each of the user's lists: the pack's items first and the
      user's after them, each once, and a list the pack has nothing for as it is. */
  lemma MergedMeans(user: Lists, pack: Lists)
    ensures var m := Merged(user, pack);
            && MergedListMeans(m.rules, user.rules, pack.rules)
            && MergedListMeans(m.fakeIpFilter, user.fakeIpFilter, pack.fakeIpFilter)
            && MergedListMeans(m.routeExclude, user.routeExclude, pack.routeExclude)
  {
    hide StringList, Deduped;
    JoinedInOrder(StringList(pack.rules), StringList(user.rules));
    JoinedInOrder(StringList(pack.fakeIpFilter), StringList(user.fakeIpFilter));
    JoinedInOrder(StringList(pack.routeExclude), StringList(user.routeExclude));
    hide Joins;
  }

  ghost predicate MergedListMeans(m: seq<string>, stored: seq<string>, additions: seq<string>) {
    if StringList(additions) == [] then m == stored else Joins(m, StringList(additions), StringList(stored))
  }

  /** What the applied configuration decides and lists. */
  lemma AppliedMeans<T>(router: Router<T>, cfg: Config, l: Lists, x: T)
    ensures var (n, c) := (Normalized(l), Applied(cfg, l));
            && Decision(router, c.rules, x)
               == (if Decides(router, n.rules, x) then Decision(router, n.rules, x) else Decision(router, cfg.rules, x))
            && (n.rules == [] ==> c.rules == cfg.rules)
            && (n.rules != [] ==> n.rules <= c.rules)
            && (forall r :: r in c.rules <==> r in n.rules || r in cfg.rules)
            && (c.hasDns <==> cfg.hasDns || n.fakeIpFilter != [])
            && (c.hasTun <==> cfg.hasTun || n.routeExclude != [])
            && (if n.fakeIpFilter == [] then c.fakeIpFilter == cfg.fakeIpFilter
                else Joins(c.fakeIpFilter, n.fakeIpFilter, StringList(cfg.fakeIpFilter)))
            && (if n.routeExclude == [] then c.routeExclude == cfg.routeExclude
                else Joins(c.routeExclude, n.routeExclude, StringList(cfg.routeExclude)))
  {
    hide StringList, DedupedOnto;
    ExceptTwice(cfg.rules, Normalized(l).rules);
    JoinedInOrder(Normalized(l).fakeIpFilter, StringList(cfg.fakeIpFilter));
    JoinedInOrder(Normalized(l).routeExclude, StringList(cfg.routeExclude));
    hide Deduped;
    var n := Normalized(l);
    NewRulesFirst(router, cfg.rules, n.rules, x);
    OntoMeans([], n.fakeIpFilter + StringList(cfg.fakeIpFilter));
    OntoMeans([], n.routeExclude + StringList(cfg.routeExclude));
  }

  // ----------------------------------------------------------- packs stored by users

  lemma MergedDecision<T>(router: Router<T>, stored: seq<string>, additions: seq<string>, x: T)
    ensures var (m, a, s) := (StringList(MergedList(stored, additions)), StringList(additions), StringList(stored));
            && Decision(router, m, x) == (if Decides(router, a, x) then Decision(router, a, x)
                else Decision(router, s, x))
            && (Decides(router, m, x) <==> Decides(router, a, x) || Decides(router, s, x))
  {
    hide DedupedOnto, StringList;
    var a, s := StringList(additions), StringList(stored);
    if a != [] {
      StringListIsClean(additions);
      StringListIsClean(stored);
      OntoMeans([], a + s);
      CleanMembers(a + s, Deduped(a + s));
      CleanIsKept(Deduped(a + s));
      DecisionOfOnto(router, [], a + s, x);
      assert [] + (a + s) == a + s;
      DecisionOfConcat(router, a, s, x);
    } else {
      DecisionOfConcat(router, a, s, x);
    }
  }

  /** Storing a pack with the user and rendering the user's overrides routes every piece of
      traffic like applying the pack over a configuration that has the overrides. */
  lemma StoredPackMeansTheSame<T>(router: Router<T>, cfg: Config, user: Lists, pack: Lists, x: T)
    ensures Decision(router, Applied(cfg, Merged(user, pack)).rules, x)
        == Decision(router, Applied(Applied(cfg, user), pack).rules, x)
  {
    hide Decision, Decides, MergedList, StringList, PrependedRules;
    AppliedMeans(router, cfg, Merged(user, pack), x);
    MergedDecision(router, user.rules, pack.rules, x);
    AppliedMeans(router, cfg, user, x);
    AppliedMeans(router, Applied(cfg, user), pack, x);
  }
}
