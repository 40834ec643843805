/** Applying migrations to a connection, statement by statement. */
module MigrationRunner {
  import opened Common
  import opened Migrations

  datatype Migration = Migration(version: nat, sql: Script)

  /** The table lists versions 2, 3, ... in order. */
  predicate Consecutive(table: seq<Migration>)
  {
    forall i :: 0 <= i < |table| ==> table[i].version == i + 2
  }

  function Scripts(legacy: Script, table: seq<Migration>): (scripts: seq<Script>)
    ensures |scripts| == |table| + 1
  {
    [legacy] + seq(|table|, i requires 0 <= i < |table| => table[i].sql)
  }

  class Connection {
    var objects: map<string, string>
    var recorded: bool
    var versions: seq<nat>
    var pending: seq<nat>
    ghost var trace: seq<Action>

    ghost function View(): Store
      reads this
    {
      Store(objects, recorded, versions, pending)
    }

    constructor (objects: map<string, string>, recorded: bool, versions: seq<nat>)
      ensures View() == Store(objects, recorded, versions, []) && trace == []
    {
      this.objects, this.recorded, this.versions, pending, trace := objects, recorded, versions, [], [];
    }

    method EnsureTable()
      modifies this
      ensures View() == Do(old(View()), EnsureVersions) && trace == old(trace) + [EnsureVersions]
    {
      recorded := true;
      trace := trace + [EnsureVersions];
    }

    method CommitNow()
      modifies this
      ensures View() == Do(old(View()), Commit) && trace == old(trace) + [Commit]
    {
      versions, pending := versions + pending, [];
      trace := trace + [Commit];
    }

    method InsertVersion(v: nat)
      requires CanDo(View(), Insert(v))
      modifies this
      ensures View() == Do(old(View()), Insert(v)) && trace == old(trace) + [Insert(v)]
    {
      pending := pending + [v];
      trace := trace + [Insert(v)];
    }

    method RunStatement(st: Statement)
      modifies this
      ensures View() == Do(old(View()), Execute(st)) && trace == old(trace) + [Execute(st)]
    {
      if st.name !in objects {
        objects := objects[st.name := st.definition];
      }
      trace := trace + [Execute(st)];
    }

    /** Commit what is open, then run the statements one by one. */
    method ExecuteScript(script: Script)
      modifies this
      ensures View() == DoAll(Do(old(View()), Commit), Executes(script))
      ensures trace == old(trace) + ([Commit] + Executes(script))
    {
      ghost var begun := trace;
      CommitNow();
      ghost var start := View();
      var i := 0;
      assert Executes(script)[..0] == [];
      while i < |script|
        invariant i <= |script|
        invariant View() == DoAll(start, Executes(script)[..i])
        invariant trace == begun + ([Commit] + Executes(script)[..i])
      {
        OneMore(start, Executes(script), i);
        RunStatement(script[i]);
        i := i + 1;
      }
      assert Executes(script)[..i] == Executes(script);
    }

    /** The highest version, 0 without the table. */
    method CurrentSchemaVersion() returns (current: nat)
      requires !recorded ==> versions == [] && pending == []
      ensures current == Highest(versions + pending)
    {
      if !recorded {
        return 0;
      }
      var all := versions + pending;
      current := 0;
      var i := 0;
      assert all[..0] == [];
      while i < |all|
        invariant i <= |all| && current == Highest(all[..i])
      {
        assert all[..i + 1][..i] == all[..i];
        if all[i] > current {
          current := all[i];
        }
        i := i + 1;
      }
      assert all[..i] == all;
    }

    method UpgradeOne(ghost scripts: seq<Script>, script: Script, version: nat, ghost base: map<string, string>,
                      ghost k: nat)
      requires 1 <= version <= |scripts| && scripts[version - 1] == script
      requires Open(base, scripts, View(), version - 1, k)
      modifies this
      ensures View() == DoAll(old(View()), Upgrade(script, version)) && Open(base, scripts, View(), version, 0)
      ensures trace == old(trace) + Upgrade(script, version)
    {
      ghost var before := View();
      ghost var after := WholeUpgrade(base, scripts, before, version - 1, k);
      UpgradeParts(before, script, version);
      ExecuteScript(script);
      InsertVersion(version);
    }

    /** The migrations of the table that lie between `start` and the target. */
    method UpgradeRest(table: seq<Migration>, start: nat, target: nat, ghost scripts: seq<Script>,
                       ghost base: map<string, string>, ghost first: Store, ghost before: seq<Action>, ghost v: nat,
                       ghost k: nat)
      returns (current: nat)
      requires Consecutive(table) && |scripts| == |table| + 1 && 1 <= start && target <= |scripts|
      requires forall i :: 0 <= i < |table| ==> scripts[i + 1] == table[i].sql
      requires Progress(base, scripts, first, before, View(), v, start, k, target)
      modifies this
      ensures current == target && View() == DoAll(first, Upgrades(scripts, v, target))
      ensures old(trace) <= trace && before + trace[|old(trace)|..] == Upgrades(scripts, v, target)
    {
      current := start;
      ghost var done, level, begun := before, k, trace;
      var i := 0;
      while i < |table|
        invariant i <= |table| && 1 <= current && (current >= i + 1 || current == target)
        invariant Progress(base, scripts, first, done, View(), v, current, level, target)
        invariant begun <= trace && before + trace[|begun|..] == done
      {
        if current < table[i].version && table[i].version <= target {
          ghost var earlier, now := View(), trace;
          UpgradeOne(scripts, table[i].sql, table[i].version, base, level);
          ProgressNext(base, scripts, first, done, earlier, v, current, level, target, View());
          TraceNext(before, begun, now, done, Upgrade(table[i].sql, table[i].version));
          done, level := done + Upgrade(table[i].sql, table[i].version), 0;
          current := table[i].version;
        }
        i := i + 1;
      }
      assert Upgrades(scripts, target, target) == [] && done + [] == done;
    }

    /** Everything between the current version and the target, the legacy schema first. */
    method UpgradeAll(legacy: Script, table: seq<Migration>, from: nat, target: nat, ghost scripts: seq<Script>,
                      ghost base: map<string, string>, ghost k: nat)
      returns (current: nat)
      requires Consecutive(table) && scripts == Scripts(legacy, table) && from <= target <= |scripts| && target >= 1
      requires Open(base, scripts, View(), from, k)
      modifies this
      ensures current == target && View() == DoAll(old(View()), Upgrades(scripts, from, target))
      ensures trace == old(trace) + Upgrades(scripts, from, target)
    {
      current := from;
      ghost var first, done, level, entered := View(), [], k, trace;
      assert done + Upgrades(scripts, from, target) == Upgrades(scripts, from, target);
      if current < 1 {
        UpgradeOne(scripts, legacy, 1, base, k);
        ProgressNext(base, scripts, first, done, first, from, 0, level, target, View());
        assert [] + Upgrade(legacy, 1) == Upgrade(legacy, 1);
        done, level := Upgrade(legacy, 1), 0;
        current := 1;
      }
      ghost var now := trace;
      current := UpgradeRest(table, current, target, scripts, base, first, done, from, level);
      WholeTrace(entered, done, now, trace, Upgrades(scripts, from, target));
    }

    /**
     * From any store an earlier call may have left, the actions are exactly those of the program, except
     * for the final commit, which is the caller's.
     */
    method ApplyMigrations(legacy: Script, table: seq<Migration>, targetVersion: Option<int>,
                           ghost base: map<string, string>, ghost v: nat, ghost k: nat)
      returns (result: Result<nat, string>)
      requires Consecutive(table) && Stands(base, Scripts(legacy, table), View(), v, k)
      requires v == 0 && !recorded ==> versions == []
      modifies this
      ensures var scripts := Scripts(legacy, table);
              var target := if targetVersion.None? then |scripts| else targetVersion.value;
              if !(1 <= target <= |scripts|) then
                result == Err("target schema version must be between 1 and " + Decimal(|scripts|)) && View() == old(View())
              else if v > target then
                result == Err("database schema " + Decimal(v) + " is newer than requested target " + Decimal(target))
                && View() == Migrated(scripts, old(View()), target)
              else result == Ok(target)
                   && trace == old(trace) + [EnsureVersions] + Upgrades(scripts, v, target)
                   && Do(View(), Commit) == Migrated(scripts, old(View()), target)
    {
      ghost var scripts := Scripts(legacy, table);
      var latest := |table| + 1;
      var target := if targetVersion.None? then latest else targetVersion.value;
      if target < 1 || target > latest {
        return Err("target schema version must be between 1 and " + Decimal(latest));
      }
      ghost var before, begun := View(), trace;
      EnsuredOpens(base, scripts, before, v, k);
      EnsureTable();
      assert versions + pending == versions;
      var current := CurrentSchemaVersion();
      if current > target {
        return Err("database schema " + Decimal(current) + " is newer than requested target " + Decimal(target));
      }
      current := UpgradeAll(legacy, table, current, target, scripts, base, k);
      assert trace == begun + [EnsureVersions] + Upgrades(scripts, v, target);
      result := Ok(current);
      MigratedCommits(scripts, before, v, target);
    }

    /** The caller: apply, then commit. */
    method Initialize(legacy: Script, table: seq<Migration>, targetVersion: Option<int>,
                      ghost base: map<string, string>, ghost v: nat, ghost k: nat)
      returns (result: Result<nat, string>)
      requires Consecutive(table) && Stands(base, Scripts(legacy, table), View(), v, k)
      requires v == 0 && !recorded ==> versions == []
      modifies this
      ensures View() == Migrated(Scripts(legacy, table), old(View()),
                                 if targetVersion.None? then |table| + 1 else targetVersion.value)
    {
      HighestOfNumbers(v);
      result := ApplyMigrations(legacy, table, targetVersion, base, v, k);
      if result.Ok? {
        CommitNow();
      }
    }
  }

  lemma MigratedCommits(scripts: seq<Script>, s: Store, v: nat, target: nat)
    requires 1 <= target <= |scripts| && v <= target && Highest(s.versions) == v
    ensures Migrated(scripts, s, target) == Do(DoAll(Do(s, EnsureVersions), Upgrades(scripts, v, target)), Commit)
  {
    var ups := Upgrades(scripts, v, target);
    assert Program(scripts, v, target)[1..] == ups + [Commit];
    assert [Commit][1..] == [];
    DoAllConcat(Do(s, EnsureVersions), ups, [Commit]);
  }

  lemma OneMore(s: Store, actions: seq<Action>, i: nat)
    requires i < |actions|
    ensures actions[..i + 1] == actions[..i] + [actions[i]]
    ensures DoAll(s, actions[..i + 1]) == Do(DoAll(s, actions[..i]), actions[i])
  {
    assert actions[..i + 1] == actions[..i] + [actions[i]] && [actions[i]][1..] == [];
    DoAllConcat(s, actions[..i], [actions[i]]);
    var t := DoAll(s, actions[..i]);
    assert DoAll(t, [actions[i]]) == Do(t, actions[i]);
  }

  lemma UpgradeParts(s: Store, script: Script, version: nat)
    ensures DoAll(s, Upgrade(script, version)) == Do(DoAll(Do(s, Commit), Executes(script)), Insert(version))
    ensures AllCanDo(s, Upgrade(script, version)) ==> CanDo(DoAll(Do(s, Commit), Executes(script)), Insert(version))
  {
    var head := [Commit] + Executes(script);
    assert head[1..] == Executes(script);
    DoAllConcat(s, head, [Insert(version)]);
    assert [Insert(version)][1..] == [];
  }

  /** So far `done` was done of all that lies between versions `v` and `target`. */
  ghost predicate Progress(base: map<string, string>, scripts: seq<Script>, first: Store, done: seq<Action>,
                           view: Store, v: nat, current: nat, level: nat, target: nat)
  {
    && v <= current <= target <= |scripts| && Open(base, scripts, view, current, level)
    && view == DoAll(first, done) && Upgrades(scripts, v, target) == done + Upgrades(scripts, current, target)
  }

  lemma ProgressNext(base: map<string, string>, scripts: seq<Script>, first: Store, done: seq<Action>, view: Store,
                     v: nat, current: nat, level: nat, target: nat, view': Store)
    requires Progress(base, scripts, first, done, view, v, current, level, target) && current < target
    requires view' == DoAll(view, Upgrade(scripts[current], current + 1)) && Open(base, scripts, view', current + 1, 0)
    ensures Progress(base, scripts, first, done + Upgrade(scripts[current], current + 1), view', v, current + 1, 0,
                     target)
  {
    var upgrade, rest := Upgrade(scripts[current], current + 1), Upgrades(scripts, current + 1, target);
    DoAllConcat(first, done, upgrade);
    assert done + (upgrade + rest) == (done + upgrade) + rest;
  }

  lemma TraceNext(before: seq<Action>, begun: seq<Action>, now: seq<Action>, done: seq<Action>, upgrade: seq<Action>)
    requires begun <= now && before + now[|begun|..] == done
    ensures begun <= now + upgrade && before + (now + upgrade)[|begun|..] == done + upgrade
  {
    assert (now + upgrade)[|begun|..] == now[|begun|..] + upgrade;
  }

  lemma WholeTrace(entered: seq<Action>, done: seq<Action>, now: seq<Action>, last: seq<Action>, all: seq<Action>)
    requires now == entered + done && now <= last && done + last[|now|..] == all
    ensures last == entered + all
  {
    assert last == now + last[|now|..];
  }
}
