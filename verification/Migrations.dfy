/** Schema migrations: scripts of idempotent statements, recorded versions, and crashes between any two of them. */
module Migrations {
  // ---------------------------------------------------------------- the store

  /** `CREATE ... IF NOT EXISTS`: the first definition of a name stays. */
  datatype Statement = Create(name: string, definition: string)

  type Script = seq<Statement>

  /** `versions` are committed; `pending` are inserted in the open transaction and lost in a crash. */
  datatype Store = Store(objects: map<string, string>, recorded: bool, versions: seq<nat>, pending: seq<nat>)

  const EMPTY := Store(map[], false, [], [])

  datatype Action = EnsureVersions | Commit | Execute(statement: Statement) | Insert(version: nat)

  function Created(objects: map<string, string>, st: Statement): map<string, string>
  {
    if st.name in objects then objects else objects[st.name := st.definition]
  }

  function CreatedAll(objects: map<string, string>, script: Script): map<string, string>
    decreases |script|
  {
    if script == [] then objects else CreatedAll(Created(objects, script[0]), script[1..])
  }

  function Highest(versions: seq<nat>): (h: nat)
    ensures forall i :: 0 <= i < |versions| ==> versions[i] <= h
  {
    if versions == [] then 0
    else
      var rest := Highest(versions[..|versions| - 1]);
      if versions[|versions| - 1] > rest then versions[|versions| - 1] else rest
  }

  /** The version is the primary key of its table. */
  predicate CanDo(s: Store, a: Action)
  {
    a.Insert? ==> s.recorded && a.version !in s.versions && a.version !in s.pending
  }

  function Do(s: Store, a: Action): Store
  {
    match a
    case EnsureVersions => s.(recorded := true)
    case Commit => s.(versions := s.versions + s.pending, pending := [])
    case Execute(st) => s.(objects := Created(s.objects, st))
    case Insert(v) => s.(pending := s.pending + [v])
  }

  predicate AllCanDo(s: Store, actions: seq<Action>)
    decreases |actions|
  {
    actions == [] || (CanDo(s, actions[0]) && AllCanDo(Do(s, actions[0]), actions[1..]))
  }

  function DoAll(s: Store, actions: seq<Action>): Store
    decreases |actions|
  {
    if actions == [] then s else DoAll(Do(s, actions[0]), actions[1..])
  }

  /** The process dies: the open transaction is rolled back. */
  function Crashed(s: Store): Store
  {
    s.(pending := [])
  }

  // ---------------------------------------------------------------- what applying migrations does

  function Executes(script: Script): (actions: seq<Action>)
    ensures |actions| == |script|
    ensures forall i :: 0 <= i < |script| ==> actions[i] == Execute(script[i])
  {
    if script == [] then [] else [Execute(script[0])] + Executes(script[1..])
  }

  /** Running a script commits first and leaves each statement durable; the version waits for the next commit. */
  function Upgrade(script: Script, version: nat): seq<Action>
  {
    [Commit] + Executes(script) + [Insert(version)]
  }

  /** `scripts[v]` takes the schema from version `v` to `v + 1`. */
  function Upgrades(scripts: seq<Script>, from: nat, to: nat): seq<Action>
    requires to <= |scripts|
    decreases if from < to then to - from else 0
  {
    if from >= to then [] else Upgrade(scripts[from], from + 1) + Upgrades(scripts, from + 1, to)
  }

  /** Everything done for a target that is not refused, with the caller's commit at the end. */
  function Program(scripts: seq<Script>, current: nat, target: nat): seq<Action>
    requires target <= |scripts|
  {
    [EnsureVersions] + Upgrades(scripts, current, target) + [Commit]
  }

  predicate Accepts(scripts: seq<Script>, s: Store, target: int)
  {
    1 <= target <= |scripts| && Highest(s.versions) <= target
  }

  /** A call that is carried to its end. */
  function Migrated(scripts: seq<Script>, s: Store, target: int): Store
  {
    if !(1 <= target <= |scripts|) then s
    else if Highest(s.versions) > target then s.(recorded := true)
    else DoAll(s, Program(scripts, Highest(s.versions), target))
  }

  /** A call that dies after some of its actions. */
  function Interrupted(scripts: seq<Script>, s: Store, target: int, after: nat): Store
  {
    if !Accepts(scripts, s, target) then Migrated(scripts, s, target)
    else
      var program := Program(scripts, Highest(s.versions), target);
      Crashed(DoAll(s, if after < |program| then program[..after] else program))
  }

  // ---------------------------------------------------------------- where a call can leave the store

  /** Versions 1 to `v`, in order. */
  function Numbers(v: nat): (versions: seq<nat>)
    ensures |versions| == v && forall i :: 0 <= i < v ==> versions[i] == i + 1
  {
    if v == 0 then [] else Numbers(v - 1) + [v]
  }

  /** The schema of version `v`, built on `base`. */
  function Built(base: map<string, string>, scripts: seq<Script>, v: nat): map<string, string>
    requires v <= |scripts|
  {
    if v == 0 then base else CreatedAll(Built(base, scripts, v - 1), scripts[v - 1])
  }

  /** The objects of version `v` and the first `k` statements of the next script. */
  ghost predicate Holds(base: map<string, string>, scripts: seq<Script>, objects: map<string, string>, v: nat, k: nat)
  {
    && v <= |scripts|
    && (if v == |scripts| then k == 0 && objects == Built(base, scripts, v)
        else k <= |scripts[v]| && objects == CreatedAll(Built(base, scripts, v), scripts[v][..k]))
  }

  /** A store at rest: exactly the versions 1 to `v` are recorded. */
  ghost predicate Stands(base: map<string, string>, scripts: seq<Script>, s: Store, v: nat, k: nat)
  {
    && Holds(base, scripts, s.objects, v, k)
    && s.versions == Numbers(v) && s.pending == [] && (v > 0 ==> s.recorded)
  }

  /** A store in the middle of a call: the last version may still be pending. */
  ghost predicate Open(base: map<string, string>, scripts: seq<Script>, s: Store, v: nat, k: nat)
  {
    && Holds(base, scripts, s.objects, v, k) && s.recorded
    && (|| (s.versions == Numbers(v) && s.pending == [])
        || (v > 0 && k == 0 && s.versions == Numbers(v - 1) && s.pending == [v]))
  }

  lemma {:induction false} HighestOfNumbers(v: nat)
    ensures Highest(Numbers(v)) == v
  {
    if v > 0 {
      HighestOfNumbers(v - 1);
      assert Numbers(v)[..v - 1] == Numbers(v - 1);
    }
  }

  lemma {:induction false} DoAllConcat(s: Store, a: seq<Action>, b: seq<Action>)
    ensures DoAll(s, a + b) == DoAll(DoAll(s, a), b)
    ensures AllCanDo(s, a + b) <==> AllCanDo(s, a) && AllCanDo(DoAll(s, a), b)
    decreases |a|
  {
    if a == [] {
      assert a + b == b;
    } else {
      assert (a + b)[1..] == a[1..] + b;
      DoAllConcat(Do(s, a[0]), a[1..], b);
    }
  }

  lemma {:induction false} DoExecutes(s: Store, script: Script)
    ensures DoAll(s, Executes(script)) == s.(objects := CreatedAll(s.objects, script))
    ensures AllCanDo(s, Executes(script))
    decreases |script|
  {
    if script != [] {
      assert Executes(script)[1..] == Executes(script[1..]);
      DoExecutes(Do(s, Execute(script[0])), script[1..]);
    }
  }

  lemma {:induction false} CreatedAllConcat(objects: map<string, string>, a: Script, b: Script)
    ensures CreatedAll(objects, a + b) == CreatedAll(CreatedAll(objects, a), b)
    decreases |a|
  {
    if a == [] {
      assert a + b == b;
    } else {
      assert (a + b)[1..] == a[1..] + b;
      CreatedAllConcat(Created(objects, a[0]), a[1..], b);
    }
  }

  lemma {:induction false} CreatedAllKeeps(objects: map<string, string>, script: Script)
    ensures forall n :: n in objects ==> n in CreatedAll(objects, script) && CreatedAll(objects, script)[n] == objects[n]
    ensures forall i :: 0 <= i < |script| ==> script[i].name in CreatedAll(objects, script)
    decreases |script|
  {
    if script != [] {
      CreatedAllKeeps(Created(objects, script[0]), script[1..]);
      assert forall i :: 0 < i < |script| ==> script[i] == script[1..][i - 1];
    }
  }

  lemma {:induction false} NothingNew(objects: map<string, string>, script: Script)
    requires forall i :: 0 <= i < |script| ==> script[i].name in objects
    ensures CreatedAll(objects, script) == objects
    decreases |script|
  {
    if script != [] {
      NothingNew(objects, script[1..]);
    }
  }

  /** Running a script again after its first `k` statements is running it once. */
  lemma RerunIsRun(objects: map<string, string>, script: Script, k: nat)
    requires k <= |script|
    ensures CreatedAll(CreatedAll(objects, script[..k]), script) == CreatedAll(objects, script)
  {
    var half := CreatedAll(objects, script[..k]);
    assert script == script[..k] + script[k..];
    CreatedAllConcat(half, script[..k], script[k..]);
    CreatedAllKeeps(objects, script[..k]);
    NothingNew(half, script[..k]);
    CreatedAllConcat(objects, script[..k], script[k..]);
  }

  lemma PrefixOfPrefix(objects: map<string, string>, script: Script, a: nat, b: nat)
    requires a <= |script| && b <= |script|
    ensures CreatedAll(CreatedAll(objects, script[..a]), script[..b])
            == CreatedAll(objects, script[..if a < b then b else a])
  {
    if a <= b {
      RerunIsRun(objects, script[..b], a);
      assert script[..b][..a] == script[..a];
    } else {
      CreatedAllKeeps(objects, script[..a]);
      NothingNew(CreatedAll(objects, script[..a]), script[..b]);
    }
  }

  // ---------------------------------------------------------------- one upgrade

  lemma CommitStays(base: map<string, string>, scripts: seq<Script>, s: Store, v: nat, k: nat)
    requires Open(base, scripts, s, v, k)
    ensures Open(base, scripts, Do(s, Commit), v, k) && Do(s, Commit).versions == Numbers(v) && Do(s, Commit).pending == []
  {
    if s.pending != [] {
      assert Numbers(v) == Numbers(v - 1) + [v];
    }
  }

  lemma ExecutesPrefix(script: Script, j: nat)
    requires j <= |script|
    ensures Executes(script)[..j] == Executes(script[..j])
  {
  }

  /** After the commit and `j` statements of the next script. */
  lemma PartWay(base: map<string, string>, scripts: seq<Script>, s: Store, v: nat, k: nat, j: nat) returns (after: Store)
    requires Open(base, scripts, s, v, k) && v < |scripts| && j <= |scripts[v]|
    ensures after == DoAll(s, [Commit] + Executes(scripts[v][..j]))
    ensures AllCanDo(s, [Commit] + Executes(scripts[v][..j]))
    ensures Open(base, scripts, after, v, if k < j then j else k)
    ensures after.versions == Numbers(v) && after.pending == []
  {
    var first := Do(s, Commit);
    CommitStays(base, scripts, s, v, k);
    var script := scripts[v][..j];
    DoExecutes(first, script);
    assert ([Commit] + Executes(script))[1..] == Executes(script);
    PrefixOfPrefix(Built(base, scripts, v), scripts[v], k, j);
    after := DoAll(first, Executes(script));
  }

  lemma WholeUpgrade(base: map<string, string>, scripts: seq<Script>, s: Store, v: nat, k: nat) returns (after: Store)
    requires Open(base, scripts, s, v, k) && v < |scripts|
    ensures after == DoAll(s, Upgrade(scripts[v], v + 1)) && AllCanDo(s, Upgrade(scripts[v], v + 1))
    ensures Open(base, scripts, after, v + 1, 0)
  {
    var script := scripts[v];
    assert script[..|script|] == script;
    var half := PartWay(base, scripts, s, v, k, |script|);
    var head := [Commit] + Executes(script);
    DoAllConcat(s, head, [Insert(v + 1)]);
    after := Do(half, Insert(v + 1));
    assert [Insert(v + 1)][1..] == [];
    assert DoAll(half, [Insert(v + 1)]) == after;
    assert after.objects == Built(base, scripts, v + 1);
    if v + 1 < |scripts| {
      assert scripts[v + 1][..0] == [];
    }
  }

  /** Wherever an upgrade stops, the store is open at the old or the new version. */
  lemma UpgradeStops(base: map<string, string>, scripts: seq<Script>, s: Store, v: nat, k: nat, m: nat)
    returns (v': nat, k': nat)
    requires Open(base, scripts, s, v, k) && v < |scripts| && m <= |Upgrade(scripts[v], v + 1)|
    ensures Open(base, scripts, DoAll(s, Upgrade(scripts[v], v + 1)[..m]), v', k')
    ensures v <= v' <= v + 1 && (v' == v + 1 ==> k' == 0)
  {
    var upgrade := Upgrade(scripts[v], v + 1);
    if m == 0 {
      v', k' := v, k;
      assert upgrade[..0] == [];
    } else if m == |upgrade| {
      assert upgrade[..m] == upgrade;
      var after := WholeUpgrade(base, scripts, s, v, k);
      v', k' := v + 1, 0;
    } else {
      var after := PartWay(base, scripts, s, v, k, m - 1);
      ExecutesPrefix(scripts[v], m - 1);
      assert upgrade[..m] == [Commit] + Executes(scripts[v])[..m - 1];
      v', k' := v, if k < m - 1 then m - 1 else k;
    }
  }

  // ---------------------------------------------------------------- whole calls

  lemma {:induction false} WholeUpgrades(base: map<string, string>, scripts: seq<Script>, s: Store, v: nat, k: nat,
                                         to: nat)
    requires Open(base, scripts, s, v, k) && v <= to <= |scripts|
    ensures AllCanDo(s, Upgrades(scripts, v, to))
    ensures Open(base, scripts, DoAll(s, Upgrades(scripts, v, to)), to, if v == to then k else 0)
    decreases if v < to then to - v else 0
  {
    if v < to {
      var after := WholeUpgrade(base, scripts, s, v, k);
      DoAllConcat(s, Upgrade(scripts[v], v + 1), Upgrades(scripts, v + 1, to));
      WholeUpgrades(base, scripts, after, v + 1, 0, to);
    }
  }

  lemma {:induction false} UpgradesStop(base: map<string, string>, scripts: seq<Script>, s: Store, v: nat, k: nat,
                                        to: nat, m: nat)
    returns (v': nat, k': nat)
    requires Open(base, scripts, s, v, k) && v <= to <= |scripts| && m <= |Upgrades(scripts, v, to)|
    ensures Open(base, scripts, DoAll(s, Upgrades(scripts, v, to)[..m]), v', k')
    ensures v <= v' <= to && (v' == to ==> k' == if v == to then k else 0)
    decreases if v < to then to - v else 0
  {
    var all := Upgrades(scripts, v, to);
    if v == to {
      v', k' := v, k;
      assert all[..m] == [];
    } else {
      var first, rest := Upgrade(scripts[v], v + 1), Upgrades(scripts, v + 1, to);
      if m <= |first| {
        assert all[..m] == first[..m];
        v', k' := UpgradeStops(base, scripts, s, v, k, m);
      } else {
        assert all[..m] == first + rest[..m - |first|];
        var after := WholeUpgrade(base, scripts, s, v, k);
        DoAllConcat(s, first, rest[..m - |first|]);
        v', k' := UpgradesStop(base, scripts, after, v + 1, 0, to, m - |first|);
      }
    }
  }

  lemma CrashStands(base: map<string, string>, scripts: seq<Script>, s: Store, v: nat, k: nat)
    returns (v': nat, k': nat)
    requires Open(base, scripts, s, v, k)
    ensures Stands(base, scripts, Crashed(s), v', k')
    ensures v' <= v && (v' == v ==> k' == k)
  {
    if s.pending == [] {
      v', k' := v, k;
    } else {
      v', k' := v - 1, |scripts[v - 1]|;
      assert scripts[v - 1][..k'] == scripts[v - 1];
      if v < |scripts| {
        assert scripts[v][..0] == [];
      }
    }
  }

  /** The store is behind the target `t`, or at it with nothing of the next script. */
  predicate Within(v: nat, k: nat, t: int)
  {
    v <= t && (v == t ==> k == 0)
  }

  lemma EnsuredOpens(base: map<string, string>, scripts: seq<Script>, s: Store, v: nat, k: nat)
    requires Stands(base, scripts, s, v, k)
    ensures Open(base, scripts, Do(s, EnsureVersions), v, k) && Highest(s.versions) == v
  {
    HighestOfNumbers(v);
  }

  /** The end of a call does not depend on how far earlier, interrupted calls came. */
  lemma CompletedIs(base: map<string, string>, scripts: seq<Script>, s: Store, v: nat, k: nat, t: nat)
    requires Stands(base, scripts, s, v, k) && Within(v, k, t) && 1 <= t <= |scripts|
    ensures Migrated(scripts, s, t) == Store(Built(base, scripts, t), true, Numbers(t), [])
    ensures AllCanDo(s, Program(scripts, v, t))
  {
    EnsuredOpens(base, scripts, s, v, k);
    var first, ups := Do(s, EnsureVersions), Upgrades(scripts, v, t);
    WholeUpgrades(base, scripts, first, v, k, t);
    var last := DoAll(first, ups);
    CommitStays(base, scripts, last, t, 0);
    assert [Commit][1..] == [];
    DoAllConcat(first, ups, [Commit]);
    assert Program(scripts, v, t)[1..] == ups + [Commit];
    if t < |scripts| {
      assert scripts[t][..0] == [];
    }
  }

  lemma ProgramPrefix(scripts: seq<Script>, s: Store, v: nat, t: nat, m: nat)
    requires t <= |scripts| && 1 <= m <= |Program(scripts, v, t)|
    ensures var ups := Upgrades(scripts, v, t);
            DoAll(s, Program(scripts, v, t)[..m])
            == if m <= |ups| + 1 then DoAll(Do(s, EnsureVersions), ups[..m - 1])
               else Do(DoAll(Do(s, EnsureVersions), ups), Commit)
  {
    var ups := Upgrades(scripts, v, t);
    var program := Program(scripts, v, t);
    Sandwich(EnsureVersions, ups, Commit, m);
    if m > |ups| + 1 {
      assert [Commit][1..] == [];
      DoAllConcat(Do(s, EnsureVersions), ups, [Commit]);
    }
  }

  lemma Sandwich(first: Action, middle: seq<Action>, last: Action, m: nat)
    requires 1 <= m <= |middle| + 2
    ensures var all := [first] + middle + [last];
            all[..m] != [] && all[..m][0] == first
            && all[..m][1..] == if m <= |middle| + 1 then middle[..m - 1] else middle + [last]
  {
  }

  /** Wherever a call dies, exactly the versions 1 to some `v'` are recorded, and none beyond its target begun. */
  lemma InterruptedStands(base: map<string, string>, scripts: seq<Script>, s: Store, v: nat, k: nat, target: int,
                          after: nat, t: nat)
    returns (v': nat, k': nat)
    requires Stands(base, scripts, s, v, k) && Within(v, k, t) && target <= t <= |scripts|
    ensures Stands(base, scripts, Interrupted(scripts, s, target, after), v', k') && Within(v', k', t)
    ensures v <= v'
  {
    v', k' := v, k;
    EnsuredOpens(base, scripts, s, v, k);
    if Accepts(scripts, s, target) {
      var program, ups := Program(scripts, v, target), Upgrades(scripts, v, target);
      var m := if after < |program| then after else |program|;
      assert program[..|program|] == program;
      if m == 0 {
        assert program[..0] == [];
      } else {
        ProgramPrefix(scripts, s, v, target, m);
        v', k' := ProgramStops(base, scripts, s, v, k, target, m);
      }
    }
  }

  lemma ProgramStops(base: map<string, string>, scripts: seq<Script>, s: Store, v: nat, k: nat, target: nat, m: nat)
    returns (v': nat, k': nat)
    requires Stands(base, scripts, s, v, k) && v <= target <= |scripts| && 1 <= m <= |Program(scripts, v, target)|
    ensures Stands(base, scripts, Crashed(DoAll(s, Program(scripts, v, target)[..m])), v', k')
    ensures v <= v' <= target && (v' == target ==> k' == if v == target then k else 0)
  {
    var ups := Upgrades(scripts, v, target);
    var first := Do(s, EnsureVersions);
    EnsuredOpens(base, scripts, s, v, k);
    ProgramPrefix(scripts, s, v, target, m);
    if m <= |ups| + 1 {
      var v1, k1 := UpgradesStop(base, scripts, first, v, k, target, m - 1);
      var stopped := DoAll(first, ups[..m - 1]);
      v', k' := CrashStands(base, scripts, stopped, v1, k1);
      PendingIsNewer(base, scripts, s, first, ups[..m - 1], v);
    } else {
      WholeUpgrades(base, scripts, first, v, k, target);
      CommitStays(base, scripts, DoAll(first, ups), target, if v == target then k else 0);
      v', k' := target, if v == target then k else 0;
    }
  }

  lemma {:induction false} VersionsGrow(s: Store, actions: seq<Action>)
    ensures s.versions <= DoAll(s, actions).versions
    decreases |actions|
  {
    if actions != [] {
      VersionsGrow(Do(s, actions[0]), actions[1..]);
    }
  }

  lemma PendingIsNewer(base: map<string, string>, scripts: seq<Script>, s: Store, first: Store, actions: seq<Action>,
                       v: nat)
    requires first == Do(s, EnsureVersions) && s.versions == Numbers(v)
    ensures |DoAll(first, actions).versions| >= v
  {
    VersionsGrow(first, actions);
  }

  // ---------------------------------------------------------------- crashes do no harm

  datatype Crash = Crash(target: int, after: nat)

  function Battered(scripts: seq<Script>, s: Store, crashes: seq<Crash>): Store
  {
    if crashes == [] then s
    else
      var last := crashes[|crashes| - 1];
      Interrupted(scripts, Battered(scripts, s, crashes[..|crashes| - 1]), last.target, last.after)
  }

  lemma {:induction false} BatteredStands(base: map<string, string>, scripts: seq<Script>, s: Store, v: nat, k: nat,
                                          crashes: seq<Crash>, t: nat)
    returns (v': nat, k': nat)
    requires Stands(base, scripts, s, v, k) && Within(v, k, t) && t <= |scripts|
    requires forall i :: 0 <= i < |crashes| ==> crashes[i].target <= t
    ensures Stands(base, scripts, Battered(scripts, s, crashes), v', k') && Within(v', k', t) && v <= v'
    decreases |crashes|
  {
    v', k' := v, k;
    if crashes != [] {
      var n := |crashes| - 1;
      var v1, k1 := BatteredStands(base, scripts, s, v, k, crashes[..n], t);
      v', k' := InterruptedStands(base, scripts, Battered(scripts, s, crashes[..n]), v1, k1, crashes[n].target,
                                  crashes[n].after, t);
    }
  }

  /**
   * Any number of calls that die at any statement, with any targets up to `t`, followed by one call for
   * `t` that completes, leave the schema and the versions of one uninterrupted call.
   */
  lemma CrashesDoNoHarm(base: map<string, string>, scripts: seq<Script>, s: Store, v: nat, k: nat,
                        crashes: seq<Crash>, t: nat)
    requires Stands(base, scripts, s, v, k) && Within(v, k, t) && 1 <= t <= |scripts|
    requires forall i :: 0 <= i < |crashes| ==> crashes[i].target <= t
    ensures Migrated(scripts, Battered(scripts, s, crashes), t) == Migrated(scripts, s, t)
    ensures Migrated(scripts, s, t) == Store(Built(base, scripts, t), true, Numbers(t), [])
    ensures exists n: nat :: v <= n <= t && Battered(scripts, s, crashes).versions == Numbers(n)
  {
    var v', k' := BatteredStands(base, scripts, s, v, k, crashes, t);
    CompletedIs(base, scripts, Battered(scripts, s, crashes), v', k', t);
    CompletedIs(base, scripts, s, v, k, t);
  }

  /** Migrating to `t1` and then to `t2` is migrating straight to `t2`. */
  lemma TwoStepsAreOne(base: map<string, string>, scripts: seq<Script>, s: Store, v: nat, k: nat, t1: nat, t2: nat)
    requires Stands(base, scripts, s, v, k) && Within(v, k, t2) && 1 <= t1 <= t2 <= |scripts|
    ensures Migrated(scripts, Migrated(scripts, s, t1), t2) == Migrated(scripts, s, t2)
  {
    EnsuredOpens(base, scripts, s, v, k);
    if v > t1 {
      assert Migrated(scripts, s, t1) == s;
    } else if Within(v, k, t1) {
      CompletedIs(base, scripts, s, v, k, t1);
      if t1 < |scripts| {
        assert scripts[t1][..0] == [];
      }
      CompletedIs(base, scripts, Migrated(scripts, s, t1), t1, 0, t2);
      CompletedIs(base, scripts, s, v, k, t2);
    } else {
      StaysAtTarget(base, scripts, s, v, k);
    }
  }

  lemma StaysAtTarget(base: map<string, string>, scripts: seq<Script>, s: Store, v: nat, k: nat)
    requires Stands(base, scripts, s, v, k) && 1 <= v <= |scripts|
    ensures Migrated(scripts, s, v) == s
  {
    EnsuredOpens(base, scripts, s, v, k);
    assert Program(scripts, v, v)[1..] == [Commit];
    assert [Commit][1..] == [] && s.versions + [] == s.versions;
    assert DoAll(Do(s, EnsureVersions), [Commit]) == Do(s, Commit);
  }

  /** A new database stands at version 0, so all of the above holds of it. */
  lemma EmptyStands(scripts: seq<Script>)
    ensures Stands(map[], scripts, EMPTY, 0, 0) && forall t: nat :: Within(0, 0, t)
  {
    if |scripts| > 0 {
      assert scripts[0][..0] == [];
    }
  }
}
