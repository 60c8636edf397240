/** The blacklist governor of the dual-writer: services/dual-writer/src/filter.cpp.

The governor keeps the configured table and tenant blacklists as sets, refills
them on a hot reload, and decides for a `keyspace.table` name whether the write
must stay off the target cluster.
*/
module BlacklistFilter {

  datatype FilterConfig = FilterConfig(
    tenantBlacklist: seq<string>,
    tableBlacklist: seq<string>,
    tenantIdColumns: seq<string>)

  datatype FilterDecision = Allow | SkipTable

  /** The contents of the governor's sets. */
  datatype Rules = Rules(tables: set<string>, tenants: set<string>, tenantIdColumns: seq<string>) {

    predicate Enabled() {
      tenants != {} || tables != {}
    }

    /** What `filter_->is_enabled() && filter_->should_skip_table(t) == SkipTable` evaluates to. */
    predicate Skips(table: string) {
      Enabled() && Matches(tables, table)
    }
  }

  /** The rules a configuration stands for: what the constructor and every reload must install. */
  function RulesOf(config: FilterConfig): Rules {
    Rules(
      (set t | t in config.tableBlacklist),
      (set t | t in config.tenantBlacklist),
      config.tenantIdColumns)
  }

  /** Position of the last dot, or -1. */
  function LastDot(s: string): (r: int)
    ensures -1 <= r < |s|
    ensures r >= 0 ==> s[r] == '.'
    ensures forall i :: r < i < |s| ==> s[i] != '.'
  {
    if s == [] then -1
    else if s[|s| - 1] == '.' then |s| - 1
    else LastDot(s[..|s| - 1])
  }

  /** One wildcard pattern against a name: `*.suffix` against what follows the last dot. */
  predicate WildcardMatches(pattern: string, table: string) {
    && |pattern| >= 2 && pattern[0] == '*' && pattern[1] == '.'
    && LastDot(table) >= 0
    && table[LastDot(table) + 1..] == pattern[2..]
  }

  /** Exact entry, or the wildcard entry of the name's last component. */
  predicate Matches(tables: set<string>, table: string) {
    table in tables || exists p :: p in tables && WildcardMatches(p, table)
  }

  /** The rule as documented: the name is listed, or it is `<keyspace>.<suffix>` with
      `*.<suffix>` listed, where the suffix is the part after the last dot. */
  ghost predicate Blacklisted(tables: set<string>, table: string) {
    || table in tables
    || exists keyspace: string, suffix: string ::
         '.' !in suffix && table == keyspace + "." + suffix && "*." + suffix in tables
  }

  /** The same rule on a configured list. */
  ghost predicate ListBlacklists(list: seq<string>, table: string) {
    || table in list
    || exists keyspace: string, suffix: string ::
         '.' !in suffix && table == keyspace + "." + suffix && "*." + suffix in list
  }

  /** The installed rules hold every configured name and nothing else, are enabled exactly when one of the two lists has
      an entry, and skip exactly the tables that the configured list blacklists. */
  lemma RulesAreConfigured(config: FilterConfig, table: string)
    ensures var rules := RulesOf(config);
            && (forall t :: t in rules.tables <==> t in config.tableBlacklist)
            && (forall t :: t in rules.tenants <==> t in config.tenantBlacklist)
            && rules.tenantIdColumns == config.tenantIdColumns
            && (rules.Enabled() <==> config.tableBlacklist != [] || config.tenantBlacklist != [])
            && (rules.Skips(table) <==> ListBlacklists(config.tableBlacklist, table))
  {
    hide Matches;
    var rules := RulesOf(config);
    assert config.tableBlacklist != [] ==> config.tableBlacklist[0] in rules.tables;
    assert config.tenantBlacklist != [] ==> config.tenantBlacklist[0] in rules.tenants;
    MatchesIsBlacklisted(rules.tables, table);
  }

  lemma SplitAtLastDot(keyspace: string, suffix: string)
    requires '.' !in suffix
    ensures LastDot(keyspace + "." + suffix) == |keyspace|
    ensures (keyspace + "." + suffix)[|keyspace| + 1..] == suffix
  {
    hide LastDot;
    var t := keyspace + "." + suffix;
    forall i | |keyspace| < i < |t| ensures t[i] != '.' {
      DotFree(suffix, i - |keyspace| - 1);
      assert t[i] == suffix[i - |keyspace| - 1];
    }
    LastDotIs(t, |keyspace|);
    assert t[|keyspace| + 1..] == suffix;
  }

  lemma DotFree(s: string, i: nat)
    requires '.' !in s && i < |s|
    ensures s[i] != '.'
  {
    assert s[i] in s;
  }

  /** A dot with none behind it is the last one. */
  lemma LastDotIs(s: string, d: nat)
    requires d < |s| && s[d] == '.' && forall i :: d < i < |s| ==> s[i] != '.'
    ensures LastDot(s) == d
  {
    assert LastDot(s) >= d;
  }

  /** The pattern loop decides exactly the documented rule. */
  lemma MatchesIsBlacklisted(tables: set<string>, table: string)
    ensures Matches(tables, table) <==> Blacklisted(tables, table)
  {
    hide WildcardMatches;
    if Matches(tables, table) && table !in tables {
      var p :| p in tables && WildcardMatches(p, table);
      var keyspace, suffix := WildcardSplits(p, table);
    }
    if Blacklisted(tables, table) && table !in tables {
      var keyspace: string, suffix: string :|
        '.' !in suffix && table == keyspace + "." + suffix && "*." + suffix in tables;
      SplitMatches(keyspace, suffix);
    }
  }

  lemma WildcardSplits(pattern: string, table: string) returns (keyspace: string, suffix: string)
    requires WildcardMatches(pattern, table)
    ensures '.' !in suffix && table == keyspace + "." + suffix && pattern == "*." + suffix
  {
    var d := LastDot(table);
    keyspace, suffix := table[..d], table[d + 1..];
    assert forall i :: 0 <= i < |suffix| ==> suffix[i] == table[d + 1 + i];
    assert table == keyspace + [table[d]] + suffix;
    assert pattern == [pattern[0], pattern[1]] + suffix;
  }

  lemma SplitMatches(keyspace: string, suffix: string)
    requires '.' !in suffix
    ensures WildcardMatches("*." + suffix, keyspace + "." + suffix)
  {
    hide LastDot;
    SplitAtLastDot(keyspace, suffix);
    assert ("*." + suffix)[2..] == suffix;
  }

  class BlacklistFilterGovernor {
    const config: FilterConfig
    var tableBlacklist: set<string>
    var tenantBlacklist: set<string>
    var tenantIdColumns: seq<string>
    var tablesSkipped: nat

    function CurrentRules(): Rules
      reads this
    {
      Rules(tableBlacklist, tenantBlacklist, tenantIdColumns)
    }

    constructor (config: FilterConfig)
      ensures this.config == config
      ensures CurrentRules() == RulesOf(config)
      ensures forall t :: t in tableBlacklist <==> t in config.tableBlacklist
      ensures forall t :: t in tenantBlacklist <==> t in config.tenantBlacklist
      ensures tablesSkipped == 0
    {
      this.config := config;
      tableBlacklist, tenantBlacklist := {}, {};
      tenantIdColumns := config.tenantIdColumns;
      tablesSkipped := 0;
      new;
      Fill();
    }

    /** The two insertion loops shared by the constructor and the reload. */
    method Fill()
      requires tableBlacklist == {} && tenantBlacklist == {}
      modifies this`tableBlacklist, this`tenantBlacklist
      ensures tableBlacklist == RulesOf(config).tables
      ensures tenantBlacklist == RulesOf(config).tenants
      ensures forall t :: t in tableBlacklist <==> t in config.tableBlacklist
      ensures forall t :: t in tenantBlacklist <==> t in config.tenantBlacklist
    {
      for i := 0 to |config.tableBlacklist|
        invariant tenantBlacklist == {}
        invariant tableBlacklist == set t | t in config.tableBlacklist[..i]
      {
        tableBlacklist := tableBlacklist + {config.tableBlacklist[i]};
      }
      for i := 0 to |config.tenantBlacklist|
        invariant tableBlacklist == RulesOf(config).tables
        invariant tenantBlacklist == set t | t in config.tenantBlacklist[..i]
      {
        tenantBlacklist := tenantBlacklist + {config.tenantBlacklist[i]};
      }
    }

    /** The hot reload clears and refills from the stored configuration, whatever the sets held. */
    method ReloadConfig()
      modifies this`tableBlacklist, this`tenantBlacklist, this`tenantIdColumns
      ensures CurrentRules() == RulesOf(config)
      ensures forall t :: t in tableBlacklist <==> t in config.tableBlacklist
      ensures forall t :: t in tenantBlacklist <==> t in config.tenantBlacklist
    {
      tableBlacklist, tenantBlacklist := {}, {};
      Fill();
      tenantIdColumns := config.tenantIdColumns;
    }

    method IsEnabled() returns (enabled: bool)
      ensures enabled == CurrentRules().Enabled()
    {
      enabled := tenantBlacklist != {} || tableBlacklist != {};
    }

    /** The decision, for whatever order the set is iterated in. */
    method ShouldSkipTable(table: string) returns (decision: FilterDecision)
      modifies this`tablesSkipped
      ensures decision == SkipTable <==> Blacklisted(tableBlacklist, table)
      ensures decision == SkipTable <==> Matches(tableBlacklist, table)
      ensures tablesSkipped == old(tablesSkipped) + if decision == SkipTable then 1 else 0
    {
      hide Blacklisted, WildcardMatches, LastDot;
      MatchesIsBlacklisted(tableBlacklist, table);
      if table in tableBlacklist {
        tablesSkipped := tablesSkipped + 1;
        return SkipTable;
      }
      var rest := tableBlacklist;
      while rest != {}
        invariant rest <= tableBlacklist
        invariant forall p :: p in tableBlacklist - rest ==> !WildcardMatches(p, table)
        invariant tablesSkipped == old(tablesSkipped)
        decreases rest
      {
        var pattern :| pattern in rest;
        var hit := PatternMatches(pattern, table);
        if hit {
          tablesSkipped := tablesSkipped + 1;
          return SkipTable;
        }
        rest := rest - {pattern};
      }
      decision := Allow;
    }
  }

  /** One pattern of the loop in `should_skip_table`. */
  method PatternMatches(pattern: string, table: string) returns (hit: bool)
    ensures hit == WildcardMatches(pattern, table)
  {
    hide LastDot;
    hit := false;
    if |pattern| >= 2 && pattern[0] == '*' && pattern[1] == '.' {
      var dotPos := RFindDot(table);
      hit := dotPos >= 0 && table[dotPos + 1..] == pattern[2..];
    }
  }

  /** `rfind('.')`, scanning from the back. */
  method RFindDot(s: string) returns (pos: int)
    ensures pos == LastDot(s)
  {
    pos := |s| - 1;
    while pos >= 0 && s[pos] != '.'
      invariant -1 <= pos < |s|
      invariant forall i :: pos < i < |s| ==> s[i] != '.'
    {
      pos := pos - 1;
    }
  }
}
