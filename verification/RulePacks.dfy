/** Rule packs and per-user overrides over a generated client configuration
    (hysteria/subscription_profiles.py). */
module RulePacks {
  import opened Wrappers

  /** The parts of a client configuration the packs touch. */
  datatype Config = Config(
    rules: seq<string>,
    hasDns: bool, fakeIpFilter: seq<string>,
    hasTun: bool, routeExclude: seq<string>)

  /** Three lists of texts, of a pack or of a user. */
  datatype Lists = Lists(rules: seq<string>, fakeIpFilter: seq<string>, routeExclude: seq<string>)

  // ---------------------------------------------------------------- value functions

  predicate Blank(c: char) {
    c in {' ', '\t', '\n', '\r'}
  }

  function LeftStripped(s: string): string {
    if s != "" && Blank(s[0]) then LeftStripped(s[1..]) else s
  }

  function RightStripped(s: string): string {
    if s != "" && Blank(s[|s| - 1]) then RightStripped(s[..|s| - 1]) else s
  }

  function Stripped(s: string): string {
    RightStripped(LeftStripped(s))
  }

  function StringList(items: seq<string>): seq<string> {
    if items == [] then []
    else
      var last := Stripped(items[|items| - 1]);
      StringList(items[..|items| - 1]) + (if last == "" then [] else [last])
  }

  /** `s` appended to `out`, without what is already there. */
  function DedupedOnto(out: seq<string>, s: seq<string>): seq<string>
    decreases |s|
  {
    if s == [] then out else DedupedOnto(if s[0] in out then out else out + [s[0]], s[1..])
  }

  function Deduped(s: seq<string>): seq<string> {
    DedupedOnto([], s)
  }

  function Except(s: seq<string>, removed: seq<string>): seq<string> {
    if s == [] then []
    else Except(s[..|s| - 1], removed) + (if s[|s| - 1] in removed then [] else [s[|s| - 1]])
  }

  function PrependedRules(rules: seq<string>, added: seq<string>): seq<string> {
    added + Except(rules, added)
  }

  function PrependedList(current: seq<string>, added: seq<string>): seq<string> {
    Deduped(added + StringList(current))
  }

  function Normalized(l: Lists): Lists {
    Lists(StringList(l.rules), StringList(l.fakeIpFilter), StringList(l.routeExclude))
  }

  /** A pack or a user's overrides, ahead of what the configuration has. */
  function Applied(cfg: Config, l: Lists): Config {
    var n := Normalized(l);
    Config(
      if n.rules == [] then cfg.rules else PrependedRules(cfg.rules, n.rules),
      cfg.hasDns || n.fakeIpFilter != [],
      if n.fakeIpFilter == [] then cfg.fakeIpFilter else PrependedList(cfg.fakeIpFilter, n.fakeIpFilter),
      cfg.hasTun || n.routeExclude != [],
      if n.routeExclude == [] then cfg.routeExclude else PrependedList(cfg.routeExclude, n.routeExclude))
  }

  function MergedList(stored: seq<string>, additions: seq<string>): seq<string> {
    if StringList(additions) == [] then stored else Deduped(StringList(additions) + StringList(stored))
  }

  /** A pack stored into a user's own lists. */
  function Merged(user: Lists, pack: Lists): Lists {
    Lists(MergedList(user.rules, pack.rules), MergedList(user.fakeIpFilter, pack.fakeIpFilter),
          MergedList(user.routeExclude, pack.routeExclude))
  }

  // ------------------------------------------------------------------- the methods

  method Dedupe(s: seq<string>) returns (out: seq<string>)
    ensures out == Deduped(s)
  {
    out := [];
    var seen: set<string>, i := {}, 0;
    while i < |s|
      invariant 0 <= i <= |s| && (forall x :: x in seen <==> x in out)
      invariant DedupedOnto(out, s[i..]) == Deduped(s)
    {
      assert s[i..][1..] == s[i + 1..];
      var item := s[i];
      i := i + 1;
      if item in seen {
        continue;
      }
      seen := seen + {item};
      out := out + [item];
    }
  }

  method ReadStringList(items: seq<string>) returns (out: seq<string>)
    ensures out == StringList(items)
  {
    out := [];
    var i := 0;
    while i < |items|
      invariant 0 <= i <= |items| && out == StringList(items[..i])
    {
      assert items[..i + 1][..i] == items[..i];
      var item := Stripped(items[i]);
      if item != "" {
        out := out + [item];
      }
      i := i + 1;
    }
    assert items[..i] == items;
  }

  class ClashConfig {
    var rules: seq<string>
    var hasDns: bool
    var fakeIpFilter: seq<string>
    var hasTun: bool
    var routeExclude: seq<string>

    ghost function View(): Config
      reads this
    {
      Config(rules, hasDns, fakeIpFilter, hasTun, routeExclude)
    }

    constructor (c: Config)
      ensures View() == c
    {
      rules, hasDns, fakeIpFilter, hasTun, routeExclude := c.rules, c.hasDns, c.fakeIpFilter, c.hasTun, c.routeExclude;
    }

    method PrependUniqueRules(added: seq<string>)
      modifies this`rules
      ensures rules == PrependedRules(old(rules), added)
    {
      var existing := [];
      var i := 0;
      while i < |rules|
        invariant 0 <= i <= |rules| && rules == old(rules) && existing == Except(rules[..i], added)
      {
        assert rules[..i + 1][..i] == rules[..i];
        if rules[i] !in added {
          existing := existing + [rules[i]];
        }
        i := i + 1;
      }
      assert rules[..i] == rules;
      rules := added + existing;
    }

    method PrependUniqueFakeIpFilters(added: seq<string>)
      modifies this`hasDns, this`fakeIpFilter
      ensures hasDns && fakeIpFilter == PrependedList(old(fakeIpFilter), added)
    {
      hasDns := true;
      var current := ReadStringList(fakeIpFilter);
      fakeIpFilter := Dedupe(added + current);
    }

    method PrependUniqueTunRouteExcludeAddresses(added: seq<string>)
      modifies this`hasTun, this`routeExclude
      ensures hasTun && routeExclude == PrependedList(old(routeExclude), added)
    {
      hasTun := true;
      var current := ReadStringList(routeExclude);
      routeExclude := Dedupe(added + current);
    }

    /** Also `apply_user_clash_overrides`, with the user's lists. */
    method ApplyLists(l: Lists)
      modifies this
      ensures View() == Applied(old(View()), l)
    {
      var added := ReadStringList(l.rules);
      var filters := ReadStringList(l.fakeIpFilter);
      var addresses := ReadStringList(l.routeExclude);
      if added != [] {
        PrependUniqueRules(added);
      }
      if filters != [] {
        PrependUniqueFakeIpFilters(filters);
      }
      if addresses != [] {
        PrependUniqueTunRouteExcludeAddresses(addresses);
      }
    }

    /** `apply_rule_pack_to_clash_config` */
    method ApplyRulePack(pack: Option<Lists>) returns (ok: bool)
      modifies this
      ensures ok <==> pack.Some?
      ensures View() == if pack.Some? then Applied(old(View()), pack.value) else old(View())
    {
      if pack.None? {
        return false;
      }
      ApplyLists(pack.value);
      ok := true;
    }
  }

  class UserConfig {
    var lists: Lists

    constructor (l: Lists)
      ensures lists == l
    {
      lists := l;
    }

    method MergeList(stored: seq<string>, additions: seq<string>) returns (out: seq<string>)
      ensures out == MergedList(stored, additions)
    {
      var kept := ReadStringList(stored);
      var added := ReadStringList(additions);
      out := stored;
      if added != [] {
        out := Dedupe(added + kept);
      }
    }

    /** `apply_rule_pack_to_user_config` */
    method ApplyRulePack(pack: Option<Lists>) returns (ok: bool)
      modifies this
      ensures ok <==> pack.Some?
      ensures lists == if pack.Some? then Merged(old(lists), pack.value) else old(lists)
    {
      if pack.None? {
        return false;
      }
      var rules := MergeList(lists.rules, pack.value.rules);
      var filters := MergeList(lists.fakeIpFilter, pack.value.fakeIpFilter);
      var addresses := MergeList(lists.routeExclude, pack.value.routeExclude);
      lists := Lists(rules, filters, addresses);
      ok := true;
    }
  }
}
