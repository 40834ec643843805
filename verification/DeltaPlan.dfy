/** Choosing the workflow of a collection and the delta it works on. */
module DeltaPlan {
  import opened Common

  /** Paths and the digests of their contents. */
  type Manifest = map<string, string>

  /** The recorded head of a repository: its archive and what the archive holds. */
  datatype Head = Head(artifactDigest: string, manifest: Manifest)

  datatype Plan =
    | Baseline
    | Unchanged
    | Incremental(changed: set<string>, removed: set<string>, closure: seq<string>)

  function Changed(previous: Manifest, current: Manifest): set<string>
  {
    set p | p in current && (p !in previous || previous[p] != current[p])
  }

  function Removed(previous: Manifest, current: Manifest): set<string>
  {
    set p | p in previous && p !in current
  }

  function PlanWorkflow(hasPackage: bool, head: Option<Head>, digest: string, current: Manifest, selected: seq<string>)
    : Plan
  {
    if !hasPackage then Baseline
    else if head.None? then Incremental(set p | p in selected, {}, selected)
    else if head.value.artifactDigest == digest then Unchanged
    else
      var changed, removed := Changed(head.value.manifest, current), Removed(head.value.manifest, current);
      Incremental(changed, removed, if exists p :: p in selected && (p in changed || p in removed) then selected else [])
  }

  /** Take the changed paths from the current manifest, drop the removed ones. */
  function Apply(previous: Manifest, current: Manifest, changed: set<string>, removed: set<string>): Manifest
    requires changed <= current.Keys
  {
    map p | p in (previous.Keys - removed) + changed :: if p in changed then current[p] else previous[p]
  }

  /** The planned delta leads from the previous manifest to the current one. */
  lemma DeltaIsExact(previous: Manifest, current: Manifest)
    ensures Changed(previous, current) <= current.Keys
    ensures Apply(previous, current, Changed(previous, current), Removed(previous, current)) == current
    ensures Changed(previous, current) !! Removed(previous, current)
  {
    var changed, removed := Changed(previous, current), Removed(previous, current);
    var result := Apply(previous, current, changed, removed);
    forall p ensures p in result <==> p in current {
      if p in previous && p in current && p !in changed {
        assert previous[p] == current[p];
      }
    }
    forall p | p in result ensures result[p] == current[p] {
    }
  }

  /** No other delta that leads there leaves anything out. */
  lemma DeltaIsMinimal(previous: Manifest, current: Manifest, changed: set<string>, removed: set<string>)
    requires changed <= current.Keys && Apply(previous, current, changed, removed) == current
    ensures Changed(previous, current) <= changed && Removed(previous, current) <= removed
  {
    var result := Apply(previous, current, changed, removed);
    forall p | p in Changed(previous, current) ensures p in changed {
      assert p in result && result[p] == current[p];
    }
    forall p | p in Removed(previous, current) ensures p in removed {
      assert p !in result;
    }
  }

  /**
   * When the selection is drawn from the current inventory, the closure is the whole selection exactly when
   * a selected path is new or differs, and empty otherwise: a removal alone never contributes.
   */
  lemma ClosureIff(head: Head, digest: string, current: Manifest, selected: seq<string>)
    requires head.artifactDigest != digest && forall p :: p in selected ==> p in current
    ensures var plan := PlanWorkflow(true, Some(head), digest, current, selected);
            plan == Incremental(Changed(head.manifest, current), Removed(head.manifest, current), plan.closure)
            && (plan.closure != [] <==>
                  exists p :: p in selected && (p !in head.manifest || head.manifest[p] != current[p]))
            && (plan.closure == [] || plan.closure == selected)
  {
    var plan := PlanWorkflow(true, Some(head), digest, current, selected);
    if p :| p in selected && (p !in head.manifest || head.manifest[p] != current[p]) {
      assert p in plan.changed;
      assert plan.closure == selected;
    } else {
      forall p | p in selected ensures p !in plan.changed && p !in plan.removed {
      }
    }
  }

  /**
   * Without a package the baseline runs, whatever is recorded. Without a recorded head the delta is the whole
   * selection, and applied to anything it brings every selected path up to date and touches no other.
   */
  lemma NothingRecorded(head: Option<Head>, digest: string, current: Manifest, selected: seq<string>, anything: Manifest)
    requires forall p :: p in selected ==> p in current
    ensures PlanWorkflow(false, head, digest, current, selected) == Baseline
    ensures var plan := PlanWorkflow(true, None, digest, current, selected);
            && plan.Incremental? && plan.closure == selected && plan.changed <= current.Keys
            && var after := Apply(anything, current, plan.changed, plan.removed);
               forall p :: if p in selected then p in after && after[p] == current[p]
                           else (p in after <==> p in anything) && (p in after ==> after[p] == anything[p])
  {
  }

  /** The bytes of a source archive. */
  type Archive = seq<bv8>

  ghost predicate Injective(digestOf: Archive -> string)
  {
    forall a, b :: digestOf(a) == digestOf(b) ==> a == b
  }

  /** What following the plan makes of the recorded manifest. */
  function Followed(plan: Plan, recorded: Manifest, current: Manifest): Manifest
    requires plan.Incremental? ==> plan.changed <= current.Keys
  {
    match plan
    case Baseline => current
    case Unchanged => recorded
    case Incremental(changed, removed, _) => Apply(recorded, current, changed, removed)
  }

  /**
   * With digests that tell archives apart, every plan against a recorded head leads from what the head
   * holds to what was submitted, so no change is ever skipped; work is skipped altogether exactly for the
   * recorded archive itself, and a repacked one with the same contents is an empty delta.
   */
  lemma EveryPlanLeadsToCurrent(recorded: Archive, submitted: Archive, digestOf: Archive -> string,
                                manifestOf: Archive -> Manifest, selected: seq<string>)
    requires Injective(digestOf)
    ensures var before, now := manifestOf(recorded), manifestOf(submitted);
            var plan := PlanWorkflow(true, Some(Head(digestOf(recorded), before)), digestOf(submitted), now, selected);
            && (plan.Incremental? ==> plan.changed <= now.Keys)
            && Followed(plan, before, now) == now
            && (plan == Unchanged <==> recorded == submitted)
            && (plan.Incremental? && plan.changed == {} && plan.removed == {} <==> recorded != submitted && before == now)
  {
    var before, now := manifestOf(recorded), manifestOf(submitted);
    DeltaIsExact(before, now);
    if Changed(before, now) == {} && Removed(before, now) == {} {
      forall p ensures p in before <==> p in now {
        assert p !in Changed(before, now) && p !in Removed(before, now);
      }
      forall p | p in now ensures before[p] == now[p] {
        assert p !in Changed(before, now);
      }
      assert before == now;
    }
  }
}
