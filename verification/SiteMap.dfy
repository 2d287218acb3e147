/** The map from hosts to sites: an indexed table against a naive search
    through the rules in the order they were added. */
module SiteMaps {
  import opened Prelude

  // ---------------------------------------------------------------- names

  function Lower(c: char): char {
    if 'A' <= c <= 'Z' then (c as int - 'A' as int + 'a' as int) as char else c
  }

  function Normalize(s: string): (n: string)
    ensures |n| == |s|
  {
    if s == "" then "" else [Lower(s[0])] + Normalize(s[1..])
  }

  lemma {:induction false} NormalizeAt(s: string, i: nat)
    requires i < |s|
    ensures Normalize(s)[i] == Lower(s[i])
    decreases i
  {
    if i > 0 {
      NormalizeAt(s[1..], i - 1);
    }
  }

  method NormalizeKey(key: string) returns (s: string)
    ensures s == Normalize(key)
  {
    s := key;
    var i := 0;
    while i < |s|
      invariant 0 <= i <= |s| == |key|
      invariant forall k :: 0 <= k < i ==> s[k] == Lower(key[k])
      invariant forall k :: i <= k < |s| ==> s[k] == key[k]
    {
      s := s[i := Lower(s[i])];
      i := i + 1;
    }
    forall k | 0 <= k < |s|
      ensures s[k] == Normalize(key)[k]
    {
      NormalizeAt(key, k);
    }
  }

  /** The first position of c from i on, or the length. */
  function FirstOf(s: string, c: char, i: nat): (k: nat)
    requires i <= |s|
    ensures i <= k <= |s| && (k < |s| ==> s[k] == c) && forall j :: i <= j < k ==> s[j] != c
    decreases |s| - i
  {
    if i == |s| || s[i] == c then i else FirstOf(s, c, i + 1)
  }

  function HostnameOnly(server: string): string {
    if server == "" then ""
    else if server[0] == '[' then
      var end := FirstOf(server, ']', 0);
      if end < |server| then server[..end + 1] else server
    else
      var colon := FirstOf(server, ':', 0);
      if colon == |server| || FirstOf(server, ':', colon + 1) < |server| then server else server[..colon]
  }

  lemma FirstIn(s: string, c: char, i: nat, k: nat)
    requires i <= k <= |s| && (k < |s| ==> s[k] == c) && forall j :: i <= j < k ==> s[j] != c
    ensures FirstOf(s, c, i) == k
  {
  }

  /** A port is stripped, and stripping again changes nothing. */
  lemma HostnameStable(server: string)
    ensures HostnameOnly(HostnameOnly(server)) == HostnameOnly(server)
  {
    var h := HostnameOnly(server);
    if server != "" && server[0] == '[' && h != server {
      FirstIn(h, ']', 0, |h| - 1);
    } else if server != "" && h != server {
      FirstIn(h, ':', 0, |h|);
    }
  }

  lemma PortIsStripped(host: string, port: string)
    requires host != "" && host[0] != '[' && ':' !in host && ':' !in port
    ensures HostnameOnly(host + ":" + port) == host && HostnameOnly(host) == host
  {
    var server := host + ":" + port;
    FirstIn(server, ':', 0, |host|);
    FirstIn(server, ':', |host| + 1, |server|);
    FirstIn(host, ':', 0, |host|);
    assert server[..|host|] == host;
  }

  // ---------------------------------------------------------------- the naive search

  datatype Rule = Rule(pattern: string, site: string) {
    /** Empty patterns and empty sites are ignored. */
    predicate Active() {
      pattern != "" && site != ""
    }
  }

  predicate Wild(key: string) {
    |key| >= 2 && key[0] == '*' && key[1] == '.'
  }

  /** The site of the last rule for a key. */
  function LastFor(rules: seq<Rule>, key: string): Option<string> {
    if rules == [] then None
    else
      var r := rules[|rules| - 1];
      if r.Active() && Normalize(r.pattern) == key then Some(r.site) else LastFor(rules[..|rules| - 1], key)
  }

  function Exact(rules: seq<Rule>, name: string): Option<string> {
    if Wild(name) then None else LastFor(rules, name)
  }

  /** The rule "*.domain" for the suffix ".domain". */
  function ForSuffix(rules: seq<Rule>, suffix: string): Option<string> {
    if suffix != "" && suffix[0] == '.' then LastFor(rules, "*" + suffix) else None
  }

  /** Tries the suffixes of a host from the longest proper one, of n characters, down. */
  function BySuffix(rules: seq<Rule>, host: string, n: nat): string
    requires n <= |host|
  {
    if n == 0 then ""
    else
      match ForSuffix(rules, host[|host| - n..])
      case Some(site) => site
      case None => BySuffix(rules, host, n - 1)
  }

  /** Exact host and port, else exact host, else the longest matching suffix;
      for equal keys the last rule wins. */
  function Search(rules: seq<Rule>, server: string): string {
    if server == "" then ""
    else
      match Exact(rules, Normalize(server))
      case Some(site) => site
      case None =>
        var host := Normalize(HostnameOnly(server));
        match Exact(rules, host)
        case Some(site) => if host == "" then "" else site
        case None => if host == "" then "" else BySuffix(rules, host, |host| - 1)
  }

  // ---------------------------------------------------------------- the index

  ghost predicate Descending(es: seq<(string, string)>) {
    forall i, j :: 0 <= i < j < |es| ==> |es[i].0| >= |es[j].0|
  }

  ghost predicate DistinctKeys(es: seq<(string, string)>) {
    forall i, j :: 0 <= i < j < |es| ==> es[i].0 != es[j].0
  }

  /** The table and the list together hold the last rule of every key. */
  ghost predicate Indexes(exact: map<string, string>, suffixes: seq<(string, string)>, rules: seq<Rule>) {
    && (forall name :: name in exact <==> Exact(rules, name).Some?)
    && (forall name :: name in exact ==> Exact(rules, name) == Some(exact[name]))
    && DistinctKeys(suffixes) && Descending(suffixes)
    && (forall i :: 0 <= i < |suffixes| ==> ForSuffix(rules, suffixes[i].0) == Some(suffixes[i].1))
    && (forall suffix :: ForSuffix(rules, suffix).Some? ==> exists i :: 0 <= i < |suffixes| && suffixes[i].0 == suffix)
  }

  predicate Matches(host: string, suffix: string) {
    |host| > |suffix| && host[|host| - |suffix|..] == suffix
  }

  /** A tail of the host that no entry equals has no rule. */
  lemma NoEntryNoRule(exact: map<string, string>, suffixes: seq<(string, string)>, rules: seq<Rule>, tail: string)
    requires Indexes(exact, suffixes, rules) && forall j :: 0 <= j < |suffixes| ==> suffixes[j].0 != tail
    ensures ForSuffix(rules, tail) == None
  {
  }

  lemma NoMatchNoRule(exact: map<string, string>, suffixes: seq<(string, string)>, rules: seq<Rule>, host: string,
                      n: nat)
    requires Indexes(exact, suffixes, rules) && 0 < n < |host|
    requires forall j :: 0 <= j < |suffixes| && |suffixes[j].0| == n ==> !Matches(host, suffixes[j].0)
    ensures ForSuffix(rules, host[|host| - n..]) == None
  {
    var tail := host[|host| - n..];
    forall j | 0 <= j < |suffixes|
      ensures suffixes[j].0 != tail
    {
      assert |suffixes[j].0| == n ==> !Matches(host, suffixes[j].0);
    }
    hide Indexes;
    NoEntryNoRule(exact, suffixes, rules, tail);
  }

  /** The first match in a list of descending lengths is the longest match:
      two different suffixes of one length cannot both match. */
  lemma {:induction false} FirstMatchIsLongest(exact: map<string, string>, suffixes: seq<(string, string)>,
                                               rules: seq<Rule>, host: string, i: nat, n: nat)
    requires Indexes(exact, suffixes, rules) && i < |suffixes| && Matches(host, suffixes[i].0)
    requires forall j :: 0 <= j < i ==> !Matches(host, suffixes[j].0)
    requires |suffixes[i].0| <= n < |host|
    ensures BySuffix(rules, host, n) == suffixes[i].1
    decreases n
  {
    SuffixNotEmpty(exact, suffixes, rules, i);
    if n > |suffixes[i].0| {
      forall j | 0 <= j < |suffixes| && |suffixes[j].0| == n
        ensures !Matches(host, suffixes[j].0)
      {
        assert j < i;
      }
      NoMatchNoRule(exact, suffixes, rules, host, n);
      FirstMatchIsLongest(exact, suffixes, rules, host, i, n - 1);
    }
  }

  lemma SuffixNotEmpty(exact: map<string, string>, suffixes: seq<(string, string)>, rules: seq<Rule>, i: nat)
    requires Indexes(exact, suffixes, rules) && i < |suffixes|
    ensures suffixes[i].0 != "" && ForSuffix(rules, suffixes[i].0) == Some(suffixes[i].1)
  {
  }

  lemma {:induction false} NoMatchNoSite(exact: map<string, string>, suffixes: seq<(string, string)>, rules: seq<Rule>,
                                         host: string, n: nat)
    requires Indexes(exact, suffixes, rules) && n < |host|
    requires forall j :: 0 <= j < |suffixes| ==> !Matches(host, suffixes[j].0)
    ensures BySuffix(rules, host, n) == ""
    decreases n
  {
    hide Indexes, Matches;
    if n > 0 {
      NoMatchNoRule(exact, suffixes, rules, host, n);
      NoMatchNoSite(exact, suffixes, rules, host, n - 1);
    }
  }

  // ---------------------------------------------------------------- adding rules

  lemma LastForAppend(rules: seq<Rule>, r: Rule, key: string)
    ensures LastFor(rules + [r], key)
            == if r.Active() && Normalize(r.pattern) == key then Some(r.site) else LastFor(rules, key)
  {
    assert (rules + [r])[..|rules|] == rules;
  }

  lemma IgnoredRule(exact: map<string, string>, suffixes: seq<(string, string)>, rules: seq<Rule>, r: Rule)
    requires Indexes(exact, suffixes, rules) && !r.Active()
    ensures Indexes(exact, suffixes, rules + [r])
  {
    hide Exact, ForSuffix;
    forall name
      ensures Exact(rules + [r], name) == Exact(rules, name)
      ensures ForSuffix(rules + [r], name) == ForSuffix(rules, name)
    {
      IgnoredName(rules, r, name);
    }
  }

  lemma IgnoredName(rules: seq<Rule>, r: Rule, name: string)
    requires !r.Active()
    ensures Exact(rules + [r], name) == Exact(rules, name)
    ensures ForSuffix(rules + [r], name) == ForSuffix(rules, name)
  {
    LastForAppend(rules, r, name);
    LastForAppend(rules, r, "*" + name);
  }

  lemma ExactRule(exact: map<string, string>, suffixes: seq<(string, string)>, rules: seq<Rule>, r: Rule)
    requires Indexes(exact, suffixes, rules) && r.Active() && !Wild(Normalize(r.pattern))
    ensures Indexes(exact[Normalize(r.pattern) := r.site], suffixes, rules + [r])
  {
    hide Exact, ForSuffix;
    forall name
      ensures Exact(rules + [r], name) == if name == Normalize(r.pattern) then Some(r.site) else Exact(rules, name)
      ensures ForSuffix(rules + [r], name) == ForSuffix(rules, name)
    {
      PlainName(rules, r, name);
    }
  }

  lemma PlainName(rules: seq<Rule>, r: Rule, name: string)
    requires r.Active() && !Wild(Normalize(r.pattern))
    ensures Exact(rules + [r], name) == if name == Normalize(r.pattern) then Some(r.site) else Exact(rules, name)
    ensures ForSuffix(rules + [r], name) == ForSuffix(rules, name)
  {
    LastForAppend(rules, r, name);
    LastForAppend(rules, r, "*" + name);
    assert name != "" && name[0] == '.' ==> Wild("*" + name);
  }

  /** The wildcard rules after one more. */
  lemma WildRule(rules: seq<Rule>, r: Rule, name: string)
    requires r.Active() && Wild(Normalize(r.pattern))
    ensures Exact(rules + [r], name) == Exact(rules, name)
    ensures ForSuffix(rules + [r], name)
            == if name == Normalize(r.pattern)[1..] then Some(r.site) else ForSuffix(rules, name)
  {
    var key := Normalize(r.pattern);
    LastForAppend(rules, r, name);
    LastForAppend(rules, r, "*" + name);
    assert key == "*" + key[1..];
    assert ("*" + name)[1..] == name;
  }

  lemma WildReplaces(exact: map<string, string>, suffixes: seq<(string, string)>, rules: seq<Rule>, r: Rule, i: nat)
    requires Indexes(exact, suffixes, rules) && r.Active() && Wild(Normalize(r.pattern))
    requires i < |suffixes| && suffixes[i].0 == Normalize(r.pattern)[1..]
    ensures Indexes(exact, suffixes[i := (suffixes[i].0, r.site)], rules + [r])
  {
    hide Exact, ForSuffix;
    var next := suffixes[i := (suffixes[i].0, r.site)];
    assert forall j :: 0 <= j < |suffixes| ==> next[j].0 == suffixes[j].0;
    forall name
      ensures Exact(rules + [r], name) == Exact(rules, name)
      ensures ForSuffix(rules + [r], name) == if name == suffixes[i].0 then Some(r.site) else ForSuffix(rules, name)
    {
      WildRule(rules, r, name);
    }
  }

  lemma WildAppends(exact: map<string, string>, suffixes: seq<(string, string)>, rules: seq<Rule>, r: Rule,
                    sorted: seq<(string, string)>)
    requires Indexes(exact, suffixes, rules) && r.Active() && Wild(Normalize(r.pattern))
    requires forall i :: 0 <= i < |suffixes| ==> suffixes[i].0 != Normalize(r.pattern)[1..]
    requires multiset(sorted) == multiset(suffixes + [(Normalize(r.pattern)[1..], r.site)]) && Descending(sorted)
    ensures Indexes(exact, sorted, rules + [r])
  {
    hide Exact, ForSuffix;
    var suffix := Normalize(r.pattern)[1..];
    var more := suffixes + [(suffix, r.site)];
    forall name
      ensures Exact(rules + [r], name) == Exact(rules, name)
      ensures ForSuffix(rules + [r], name) == if name == suffix then Some(r.site) else ForSuffix(rules, name)
    {
      WildRule(rules, r, name);
    }
    assert DistinctKeys(more);
    PermutedKeys(more, sorted);
    forall name | ForSuffix(rules + [r], name).Some?
      ensures exists i :: 0 <= i < |sorted| && sorted[i].0 == name
    {
      var e := if name == suffix then (suffix, r.site)
               else var i :| 0 <= i < |suffixes| && suffixes[i].0 == name; suffixes[i];
      assert e in more;
      assert e in multiset(more);
      assert e in sorted;
    }
    forall i | 0 <= i < |sorted|
      ensures ForSuffix(rules + [r], sorted[i].0) == Some(sorted[i].1)
    {
      assert sorted[i] in multiset(sorted);
      assert sorted[i] in more;
    }
  }

  lemma {:induction false} AtMostOnce(es: seq<(string, string)>, e: (string, string))
    requires DistinctKeys(es)
    ensures multiset(es)[e] <= 1
    decreases |es|
  {
    if es != [] {
      var init, last := es[..|es| - 1], es[|es| - 1];
      assert es == init + [last];
      AtMostOnce(init, e);
      if last == e {
        assert e !in init;
      }
    }
  }

  lemma Twice(es: seq<(string, string)>, i: nat, j: nat)
    requires i < j < |es| && es[i] == es[j]
    ensures multiset(es)[es[i]] >= 2
  {
    assert es == es[..j] + es[j..];
    assert es[i] == es[..j][i] && es[i] in es[..j] && es[j] == es[j..][0] && es[j] in es[j..];
  }

  /** Sorting keeps keys distinct. */
  lemma PermutedKeys(a: seq<(string, string)>, b: seq<(string, string)>)
    requires DistinctKeys(a) && multiset(a) == multiset(b)
    ensures DistinctKeys(b)
  {
    forall i, j | 0 <= i < j < |b|
      ensures b[i].0 != b[j].0
    {
      assert b[i] in multiset(a) && b[j] in multiset(a);
      AtMostOnce(a, b[i]);
      if b[i] == b[j] {
        Twice(b, i, j);
      }
    }
  }

  // ---------------------------------------------------------------- the order of rules

  predicate For(r: Rule, key: string) {
    r.Active() && Normalize(r.pattern) == key
  }

  /** The rules for one key, in the order they were added. */
  function RulesFor(rules: seq<Rule>, key: string): seq<Rule> {
    if rules == [] then []
    else
      var r := rules[|rules| - 1];
      RulesFor(rules[..|rules| - 1], key) + if For(r, key) then [r] else []
  }

  lemma {:induction false} LastOfRules(rules: seq<Rule>, key: string)
    ensures var own := RulesFor(rules, key);
            LastFor(rules, key) == if own == [] then None else Some(own[|own| - 1].site)
    decreases |rules|
  {
    if rules != [] {
      LastOfRules(rules[..|rules| - 1], key);
    }
  }

  /** What was found is in the list, and what is in the list is found. */
  lemma {:induction false} LastIn(rules: seq<Rule>, key: string)
    ensures LastFor(rules, key) == None ==> forall r :: r in rules ==> !For(r, key)
    ensures LastFor(rules, key).Some? ==> exists r :: r in rules && For(r, key) && r.site == LastFor(rules, key).value
    decreases |rules|
  {
    if rules != [] {
      var init, last := rules[..|rules| - 1], rules[|rules| - 1];
      assert rules == init + [last];
      LastIn(init, key);
      if For(last, key) {
        assert last in rules;
      } else if LastFor(init, key).Some? {
        var r :| r in init && For(r, key) && r.site == LastFor(init, key).value;
        assert r in rules;
      }
    }
  }

  lemma {:induction false} BySuffixSame(rs: seq<Rule>, ts: seq<Rule>, host: string, n: nat)
    requires n <= |host| && forall key :: LastFor(rs, key) == LastFor(ts, key)
    ensures BySuffix(rs, host, n) == BySuffix(ts, host, n)
    decreases n
  {
    hide LastFor;
    if n > 0 {
      BySuffixSame(rs, ts, host, n - 1);
    }
  }

  lemma SearchSame(rs: seq<Rule>, ts: seq<Rule>, server: string)
    requires forall key :: LastFor(rs, key) == LastFor(ts, key)
    ensures Search(rs, server) == Search(ts, server)
  {
    hide LastFor, BySuffix;
    var host := Normalize(HostnameOnly(server));
    if host != "" {
      BySuffixSame(rs, ts, host, |host| - 1);
    }
  }

  /** Only the order of rules for one key matters: any reordering that keeps,
      for each key, the order of its rules changes no answer. */
  lemma OrderAcrossKeysIsFree(rs: seq<Rule>, ts: seq<Rule>, server: string)
    requires forall key :: RulesFor(rs, key) == RulesFor(ts, key)
    ensures Search(rs, server) == Search(ts, server)
  {
    hide LastFor, RulesFor, Search;
    forall key
      ensures LastFor(rs, key) == LastFor(ts, key)
    {
      LastOfRules(rs, key);
      LastOfRules(ts, key);
    }
    SearchSame(rs, ts, server);
  }

  /** No two different rules have the same normalized key. */
  ghost predicate OneRulePerKey(rules: seq<Rule>) {
    forall r, q :: r in rules && q in rules && Normalize(r.pattern) == Normalize(q.pattern) ==> r == q
  }

  /** Rules with distinct normalized keys may be added in any order. */
  lemma OrderOfDistinctKeysIsFree(rs: seq<Rule>, ts: seq<Rule>, server: string)
    requires multiset(rs) == multiset(ts) && OneRulePerKey(rs)
    ensures Search(rs, server) == Search(ts, server)
  {
    hide LastFor, Search;
    forall key
      ensures LastFor(rs, key) == LastFor(ts, key)
    {
      SameForKey(rs, ts, key);
    }
    SearchSame(rs, ts, server);
  }

  lemma SameMembers(rs: seq<Rule>, ts: seq<Rule>)
    requires multiset(rs) == multiset(ts)
    ensures forall r :: r in rs <==> r in ts
  {
    forall r
      ensures r in rs <==> r in ts
    {
      assert r in rs <==> r in multiset(rs);
      assert r in ts <==> r in multiset(ts);
    }
  }

  lemma SameForKey(rs: seq<Rule>, ts: seq<Rule>, key: string)
    requires multiset(rs) == multiset(ts) && OneRulePerKey(rs)
    ensures LastFor(rs, key) == LastFor(ts, key)
  {
    hide LastFor;
    SameMembers(rs, ts);
    LastIn(rs, key);
    LastIn(ts, key);
  }

  // ---------------------------------------------------------------- the class

  /** Any sort by descending length will do; this one inserts. */
  method SortByLength(es: seq<(string, string)>) returns (sorted: seq<(string, string)>)
    ensures Descending(sorted) && multiset(sorted) == multiset(es)
  {
    sorted := [];
    var i := 0;
    while i < |es|
      invariant 0 <= i <= |es| && Descending(sorted) && multiset(sorted) == multiset(es[..i])
    {
      assert es[..i + 1] == es[..i] + [es[i]];
      sorted := InsertByLength(sorted, es[i]);
      i := i + 1;
    }
    assert es[..i] == es;
  }

  method InsertByLength(es: seq<(string, string)>, e: (string, string)) returns (more: seq<(string, string)>)
    requires Descending(es)
    ensures Descending(more) && multiset(more) == multiset(es) + multiset{e}
  {
    var k := 0;
    while k < |es| && |es[k].0| >= |e.0|
      invariant 0 <= k <= |es| && forall j :: 0 <= j < k ==> |es[j].0| >= |e.0|
    {
      k := k + 1;
    }
    more := es[..k] + [e] + es[k..];
    InsertedOrder(es, e, k);
    InsertedMembers(es, e, k);
  }

  lemma InsertedMembers(es: seq<(string, string)>, e: (string, string), k: nat)
    requires k <= |es|
    ensures multiset(es[..k] + [e] + es[k..]) == multiset(es) + multiset{e}
  {
    assert es == es[..k] + es[k..];
  }

  lemma InsertedOrder(es: seq<(string, string)>, e: (string, string), k: nat)
    requires Descending(es) && k <= |es| && (k < |es| ==> |es[k].0| < |e.0|)
    requires forall j :: 0 <= j < k ==> |es[j].0| >= |e.0|
    ensures Descending(es[..k] + [e] + es[k..])
  {
    var more := es[..k] + [e] + es[k..];
    forall i, j | 0 <= i < j < |more|
      ensures |more[i].0| >= |more[j].0|
    {
      if j == k {
        assert more[i] == es[i];
      } else if i == k {
        assert more[j] == es[j - 1] && |es[k].0| >= |es[j - 1].0|;
      } else {
        assert more[i] == es[if i < k then i else i - 1] && more[j] == es[if j < k then j else j - 1];
      }
    }
  }

  class SiteMap {
    var exact: map<string, string>
    var suffixes: seq<(string, string)>
    /** Every rule added so far, in order. */
    ghost var rules: seq<Rule>

    ghost predicate Valid()
      reads this
    {
      Indexes(exact, suffixes, rules)
    }

    constructor ()
      ensures Valid() && rules == []
    {
      exact := map[];
      suffixes := [];
      rules := [];
    }

    method Add(pattern: string, site: string)
      requires Valid()
      modifies this
      ensures Valid() && rules == old(rules) + [Rule(pattern, site)]
    {
      hide Indexes, Descending;
      ghost var r := Rule(pattern, site);
      rules := rules + [r];
      if pattern == "" || site == "" {
        IgnoredRule(exact, suffixes, old(rules), r);
        return;
      }
      var key := NormalizeKey(pattern);
      if |key| >= 2 && key[0] == '*' && key[1] == '.' {
        var suffix := key[1..];
        var i := 0;
        while i < |suffixes|
          invariant 0 <= i <= |suffixes| && forall j :: 0 <= j < i ==> suffixes[j].0 != suffix
        {
          if suffixes[i].0 == suffix {
            WildReplaces(exact, suffixes, old(rules), r, i);
            suffixes := suffixes[i := (suffix, site)];
            return;
          }
          i := i + 1;
        }
        var sorted := SortByLength(suffixes + [(suffix, site)]);
        WildAppends(exact, suffixes, old(rules), r, sorted);
        suffixes := sorted;
        return;
      }
      ExactRule(exact, suffixes, old(rules), r);
      exact := exact[key := site];
    }

    method Lookup(server: string) returns (site: string)
      requires Valid()
      ensures site == Search(rules, server)
    {
      hide Indexes, Exact, ForSuffix, BySuffix, HostnameOnly;
      if server == "" || (exact == map[] && suffixes == []) {
        EmptyFindsNothing(exact, suffixes, rules, server);
        return "";
      }
      var full := NormalizeKey(server);
      ExactFinds(exact, suffixes, rules, full);
      if full in exact {
        return exact[full];
      }
      var host := NormalizeKey(HostnameOnly(server));
      ExactFinds(exact, suffixes, rules, host);
      if host != "" {
        if host in exact {
          return exact[host];
        }
        var i := 0;
        while i < |suffixes|
          invariant 0 <= i <= |suffixes| && forall j :: 0 <= j < i ==> !Matches(host, suffixes[j].0)
        {
          var suffix := suffixes[i].0;
          if |host| > |suffix| && host[|host| - |suffix|..] == suffix {
            FirstMatchIsLongest(exact, suffixes, rules, host, i, |host| - 1);
            return suffixes[i].1;
          }
          i := i + 1;
        }
        NoMatchNoSite(exact, suffixes, rules, host, |host| - 1);
      }
      return "";
    }
  }

  lemma ExactFinds(exact: map<string, string>, suffixes: seq<(string, string)>, rules: seq<Rule>, name: string)
    requires Indexes(exact, suffixes, rules)
    ensures Exact(rules, name) == if name in exact then Some(exact[name]) else None
  {
    hide Exact;
  }

  lemma EmptyFindsNothing(exact: map<string, string>, suffixes: seq<(string, string)>, rules: seq<Rule>, server: string)
    requires Indexes(exact, suffixes, rules) && (server == "" || (exact == map[] && suffixes == []))
    ensures Search(rules, server) == ""
  {
    var host := Normalize(HostnameOnly(server));
    if server != "" && host != "" {
      NoMatchNoSite(exact, suffixes, rules, host, |host| - 1);
    }
    hide BySuffix, LastFor;
  }
}
