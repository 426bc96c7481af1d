/** The equipment steps of the booking flow: checking that every requested SKU exists and is
    enabled, and choosing the serial-tracked items a booking takes. */
module EquipmentAllocation {
  import opened Wrappers
  import opened Intervals
  import opened Grouping
  import opened Conflicts
  import Errors
  import Persistence

  type Assignment = Persistence.EquipmentItemAssignment

  // ---------------------------------------------------------------------------------------
  // Resource validation

  const EquipmentResource: string := "機材"

  predicate Usable(ctx: EquipmentAvailabilityContext, equipmentId: string) {
    equipmentId in ctx.equipmentById && ctx.equipmentById[equipmentId].active
  }

  /** The error raised by the first requirement whose SKU is unknown (not found) or disabled. */
  function ResourceProblem(reqs: seq<EquipmentRequirement>, ctx: EquipmentAvailabilityContext): Option<Errors.DomainError> {
    if reqs == [] then None
    else if reqs[0].equipmentId !in ctx.equipmentById then Some(Errors.ResourceUnavailable(EquipmentResource, false))
    else if !ctx.equipmentById[reqs[0].equipmentId].active then Some(Errors.ResourceUnavailable(EquipmentResource, true))
    else ResourceProblem(reqs[1..], ctx)
  }

  /** `validateEquipmentResources`: walks the requirements in order and throws at the first
      unknown or disabled SKU. */
  method ValidateEquipmentResources(reqs: seq<EquipmentRequirement>, ctx: EquipmentAvailabilityContext)
    returns (outcome: Outcome<Errors.DomainError>)
    ensures outcome.Pass? <==> ResourceProblem(reqs, ctx).None?
    ensures outcome.Fail? ==> ResourceProblem(reqs, ctx) == Some(outcome.error)
  {
    for i := 0 to |reqs|
      invariant ResourceProblem(reqs[i..], ctx) == ResourceProblem(reqs, ctx)
    {
      assert reqs[i..][1..] == reqs[i + 1..];
      var equipmentId := reqs[i].equipmentId;
      if equipmentId !in ctx.equipmentById {
        return Fail(Errors.ResourceUnavailable(EquipmentResource, false));
      }
      if !ctx.equipmentById[equipmentId].active {
        return Fail(Errors.ResourceUnavailable(EquipmentResource, true));
      }
    }
    return Pass;
  }

  /** The check passes exactly when every requested SKU is known and enabled; when it fails,
      the error names the first offending requirement, as not found (404) when its SKU is
      unknown and as disabled (400) when it is known but inactive. */
  lemma {:induction false} ResourceProblemIff(reqs: seq<EquipmentRequirement>, ctx: EquipmentAvailabilityContext)
    ensures ResourceProblem(reqs, ctx).None? <==> forall r :: r in reqs ==> Usable(ctx, r.equipmentId)
    ensures ResourceProblem(reqs, ctx).Some? ==>
      exists k :: 0 <= k < |reqs| && !Usable(ctx, reqs[k].equipmentId)
        && (forall j :: 0 <= j < k ==> Usable(ctx, reqs[j].equipmentId))
        && ResourceProblem(reqs, ctx).value ==
           Errors.ResourceUnavailable(EquipmentResource, reqs[k].equipmentId in ctx.equipmentById)
  {
    if reqs != [] {
      ResourceProblemIff(reqs[1..], ctx);
      if Usable(ctx, reqs[0].equipmentId) {
        if forall r :: r in reqs[1..] ==> Usable(ctx, r.equipmentId) {
          forall r | r in reqs ensures Usable(ctx, r.equipmentId) {
            if r != reqs[0] { assert r in reqs[1..]; }
          }
        }
        if ResourceProblem(reqs, ctx).Some? {
          var k :| 0 <= k < |reqs[1..]| && !Usable(ctx, reqs[1..][k].equipmentId)
            && (forall j :: 0 <= j < k ==> Usable(ctx, reqs[1..][j].equipmentId))
            && ResourceProblem(reqs[1..], ctx).value ==
               Errors.ResourceUnavailable(EquipmentResource, reqs[1..][k].equipmentId in ctx.equipmentById);
          assert !Usable(ctx, reqs[k + 1].equipmentId);
          forall j | 0 <= j < k + 1 ensures Usable(ctx, reqs[j].equipmentId) {
            if j > 0 { assert reqs[j] == reqs[1..][j - 1]; }
          }
        }
      } else {
        assert reqs[0] in reqs;
      }
    }
  }

  // ---------------------------------------------------------------------------------------
  // Item allocation

  /** The SKU is known and its units are individually tracked. */
  predicate Tracked(ctx: EquipmentAvailabilityContext, equipmentId: string) {
    equipmentId in ctx.equipmentById && ctx.equipmentById[equipmentId].trackSerial
  }

  /** No recorded use of the item overlaps the occupied interval. */
  predicate ItemFree(ctx: EquipmentAvailabilityContext, item: EquipmentItemRecord, c: OccupiedInterval) {
    !AnyOverlap(Lookup(ctx.equipmentUsageByItemId, item.id), c.occupiedStart, c.occupiedEnd)
  }

  function FreeEntry(ctx: EquipmentAvailabilityContext, c: OccupiedInterval, equipmentId: string)
    : EquipmentItemRecord -> Option<Assignment>
  {
    (item: EquipmentItemRecord) =>
      if ItemFree(ctx, item, c) then Some(Persistence.EquipmentItemAssignment(item.id, equipmentId)) else None
  }

  /** An assignment for each available item of the SKU that is free, in list order. */
  function FreeAssignments(ctx: EquipmentAvailabilityContext, c: OccupiedInterval, equipmentId: string): seq<Assignment> {
    Pick(Lookup(ctx.availableItemsByEquipmentId, equipmentId), FreeEntry(ctx, c, equipmentId))
  }

  /** What the greedy scan keeps of the free items: it stops as soon as it holds `qty` of them.
      The count is compared only after an item is taken, so a quantity below one never stops
      the scan and every free item is taken. */
  function Selected(free: seq<Assignment>, qty: int): (sel: seq<Assignment>)
    ensures 1 <= qty <= |free| ==> |sel| == qty
    ensures (qty < 1 || |free| < qty) ==> sel == free
    ensures sel <= free
  {
    if 1 <= qty <= |free| then free[..qty] else free
  }

  /** The assignments one requirement contributes, or the shortage it raises. */
  function RequirementAllocation(req: EquipmentRequirement, c: OccupiedInterval, ctx: EquipmentAvailabilityContext)
    : Result<seq<Assignment>, Errors.DomainError>
  {
    if !Tracked(ctx, req.equipmentId) then Success([])
    else
      var sel := Selected(FreeAssignments(ctx, c, req.equipmentId), req.qty);
      if |sel| < req.qty then Failure(Errors.ConflictDetected("機材個体の空きが不足しています", Errors.ItemShortage(req.equipmentId)))
      else Success(sel)
  }

  /** The assignments of all requirements in order, or the first shortage. */
  function AllocationOf(reqs: seq<EquipmentRequirement>, c: OccupiedInterval, ctx: EquipmentAvailabilityContext)
    : Result<seq<Assignment>, Errors.DomainError>
  {
    if reqs == [] then Success([])
    else
      match AllocationOf(reqs[..|reqs| - 1], c, ctx)
      case Failure(e) => Failure(e)
      case Success(prev) =>
        match RequirementAllocation(reqs[|reqs| - 1], c, ctx)
        case Failure(e) => Failure(e)
        case Success(more) => Success(prev + more)
  }

  /** Picking from a prefix of the rows picks a prefix of what the whole list yields. */
  lemma {:induction false} PickPrefix<R, V>(rows: seq<R>, j: int, f: R -> Option<V>)
    requires 0 <= j <= |rows|
    ensures Pick(rows[..j], f) <= Pick(rows, f)
  {
    assert rows[..j] + rows[j..] == rows;
    PickAppend(rows[..j], rows[j..], f);
    var p := Pick(rows[..j], f);
    assert Pick(rows, f) == p + Pick(rows[j..], f);
    assert Pick(rows, f)[..|p|] == p;
  }

  /** Once a prefix of the requirements fails, the whole list fails with the same error. */
  lemma {:induction false} AllocationFailsAt(reqs: seq<EquipmentRequirement>, i: int, c: OccupiedInterval, ctx: EquipmentAvailabilityContext)
    requires 0 <= i <= |reqs|
    requires AllocationOf(reqs[..i], c, ctx).Failure?
    ensures AllocationOf(reqs, c, ctx) == AllocationOf(reqs[..i], c, ctx)
  {
    if i < |reqs| {
      var n := |reqs| - 1;
      assert reqs[..n][..i] == reqs[..i];
      AllocationFailsAt(reqs[..n], i, c, ctx);
    } else {
      assert reqs[..i] == reqs;
    }
  }

  /** The inner loop of `allocateEquipmentItems`: takes the free items of the list in order
      and stops once it holds `qty` of them. */
  method SelectItems(items: seq<EquipmentItemRecord>, qty: int, c: OccupiedInterval,
                     ctx: EquipmentAvailabilityContext, equipmentId: string)
    returns (selected: seq<Assignment>)
    ensures selected == Selected(Pick(items, FreeEntry(ctx, c, equipmentId)), qty)
  {
    ghost var f := FreeEntry(ctx, c, equipmentId);
    selected := [];
    var j := 0;
    while j < |items|
      invariant 0 <= j <= |items|
      invariant selected == Pick(items[..j], f)
      invariant 1 <= qty ==> |selected| < qty
    {
      PickStep(items, j, f);
      var busy := HasAnyOverlap(Lookup(ctx.equipmentUsageByItemId, items[j].id), c.occupiedStart, c.occupiedEnd);
      if busy {
        j := j + 1;
        continue;
      }
      selected := selected + [Persistence.EquipmentItemAssignment(items[j].id, equipmentId)];
      j := j + 1;
      if |selected| == qty {
        PickPrefix(items, j, f);
        return;
      }
    }
    assert items[..j] == items;
  }

  /** `allocateEquipmentItems`: for each requirement whose SKU is tracked, takes free items in
      list order up to the quantity, and raises a conflict naming the SKU when fewer are free. */
  method AllocateEquipmentItems(reqs: seq<EquipmentRequirement>, c: OccupiedInterval, ctx: EquipmentAvailabilityContext)
    returns (r: Result<seq<Assignment>, Errors.DomainError>)
    ensures r == AllocationOf(reqs, c, ctx)
  {
    var assignments: seq<Assignment> := [];
    for i := 0 to |reqs|
      invariant AllocationOf(reqs[..i], c, ctx) == Success(assignments)
    {
      assert reqs[..i + 1][..i] == reqs[..i];
      var req := reqs[i];
      ghost var step := RequirementAllocation(req, c, ctx);
      assert AllocationOf(reqs[..i + 1], c, ctx) ==
        if step.Failure? then Failure(step.error) else Success(assignments + step.value);
      if !(req.equipmentId in ctx.equipmentById && ctx.equipmentById[req.equipmentId].trackSerial) {
        assert assignments + step.value == assignments;
        continue;
      }
      var items := Lookup(ctx.availableItemsByEquipmentId, req.equipmentId);
      var selected := SelectItems(items, req.qty, c, ctx, req.equipmentId);
      assert selected == Selected(FreeAssignments(ctx, c, req.equipmentId), req.qty);
      if |selected| < req.qty {
        AllocationFailsAt(reqs, i + 1, c, ctx);
        return Failure(Errors.ConflictDetected("機材個体の空きが不足しています", Errors.ItemShortage(req.equipmentId)));
      }
      assignments := assignments + selected;
    }
    assert reqs[..|reqs|] == reqs;
    return Success(assignments);
  }

  // ---------------------------------------------------------------------------------------
  // Properties of the allocation

  /** What one requirement gets: nothing for an untracked SKU; for a tracked one, exactly its
      quantity of free items when that is at least one (all free items otherwise), each an
      available, free item of that SKU tagged with its id; a shortage exactly when fewer free
      items than the quantity exist. */
  lemma RequirementAllocationSpec(req: EquipmentRequirement, c: OccupiedInterval, ctx: EquipmentAvailabilityContext)
    ensures var r := RequirementAllocation(req, c, ctx);
      && (r.Failure? <==> Tracked(ctx, req.equipmentId) && |FreeAssignments(ctx, c, req.equipmentId)| < req.qty)
      && (r.Failure? ==> r.error == Errors.ConflictDetected("機材個体の空きが不足しています", Errors.ItemShortage(req.equipmentId)))
      && (r.Success? && !Tracked(ctx, req.equipmentId) ==> r.value == [])
      && (r.Success? && Tracked(ctx, req.equipmentId) && req.qty >= 1 ==> |r.value| == req.qty)
      && (r.Success? && Tracked(ctx, req.equipmentId) && req.qty < 1 ==> r.value == FreeAssignments(ctx, c, req.equipmentId))
  {
  }

  /** Every assignment of a requirement is an available item of that SKU that is free over
      the occupied interval. */
  lemma RequirementAssignmentsGenuine(req: EquipmentRequirement, c: OccupiedInterval, ctx: EquipmentAvailabilityContext,
                                      a: Assignment)
    requires RequirementAllocation(req, c, ctx).Success?
    requires a in RequirementAllocation(req, c, ctx).value
    ensures a.equipmentId == req.equipmentId && Tracked(ctx, req.equipmentId)
    ensures exists item :: (item in Lookup(ctx.availableItemsByEquipmentId, req.equipmentId)
      && item.id == a.equipmentItemId && ItemFree(ctx, item, c))
  {
    var free := FreeAssignments(ctx, c, req.equipmentId);
    assert a in free;
    PickMembers(Lookup(ctx.availableItemsByEquipmentId, req.equipmentId), FreeEntry(ctx, c, req.equipmentId), a);
  }

  /** The allocation fails exactly when some requirement of a tracked SKU has fewer free items
      than its quantity, and then with the shortage of the first such requirement. */
  lemma {:induction false} AllocationFailsIff(reqs: seq<EquipmentRequirement>, c: OccupiedInterval, ctx: EquipmentAvailabilityContext)
    ensures AllocationOf(reqs, c, ctx).Failure? <==>
      exists k :: 0 <= k < |reqs| && RequirementAllocation(reqs[k], c, ctx).Failure?
    ensures AllocationOf(reqs, c, ctx).Failure? ==>
      exists k :: 0 <= k < |reqs| && RequirementAllocation(reqs[k], c, ctx).Failure?
        && AllocationOf(reqs, c, ctx).error == RequirementAllocation(reqs[k], c, ctx).error
        && forall j :: 0 <= j < k ==> RequirementAllocation(reqs[j], c, ctx).Success?
  {
    if reqs != [] {
      var n := |reqs| - 1;
      var init := reqs[..n];
      var last := RequirementAllocation(reqs[n], c, ctx);
      AllocationFailsIff(init, c, ctx);
      assert forall j :: 0 <= j < n ==> reqs[j] == init[j];
      if AllocationOf(init, c, ctx).Failure? {
        var k :| 0 <= k < |init| && RequirementAllocation(init[k], c, ctx).Failure?
          && AllocationOf(init, c, ctx).error == RequirementAllocation(init[k], c, ctx).error
          && forall j :: 0 <= j < k ==> RequirementAllocation(init[j], c, ctx).Success?;
        assert AllocationOf(reqs, c, ctx) == AllocationOf(init, c, ctx);
        assert RequirementAllocation(reqs[k], c, ctx).Failure?;
      } else {
        assert forall j :: 0 <= j < n ==> RequirementAllocation(reqs[j], c, ctx).Success?;
        if last.Failure? {
          assert AllocationOf(reqs, c, ctx) == Failure(last.error);
        } else {
          assert AllocationOf(reqs, c, ctx).Success?;
        }
      }
    }
  }

  /** Every assignment of a successful allocation belongs to some requirement, and is an
      available, free item of that requirement's tracked SKU. */
  lemma {:induction false} AllocationGenuine(reqs: seq<EquipmentRequirement>, c: OccupiedInterval, ctx: EquipmentAvailabilityContext,
                                             a: Assignment)
    requires AllocationOf(reqs, c, ctx).Success?
    requires a in AllocationOf(reqs, c, ctx).value
    ensures exists k :: 0 <= k < |reqs| && a.equipmentId == reqs[k].equipmentId && Tracked(ctx, reqs[k].equipmentId)
    ensures exists item :: (item in Lookup(ctx.availableItemsByEquipmentId, a.equipmentId)
      && item.id == a.equipmentItemId && ItemFree(ctx, item, c))
  {
    var n := |reqs| - 1;
    var init := reqs[..n];
    var prev := AllocationOf(init, c, ctx).value;
    var more := RequirementAllocation(reqs[n], c, ctx).value;
    if a in prev {
      AllocationGenuine(init, c, ctx, a);
      var k :| 0 <= k < |init| && a.equipmentId == init[k].equipmentId && Tracked(ctx, init[k].equipmentId);
      assert reqs[k] == init[k];
    } else {
      assert a in more;
      RequirementAssignmentsGenuine(reqs[n], c, ctx, a);
    }
  }

  /** How many of the assignments are for the SKU. */
  function CountFor(assignments: seq<Assignment>, equipmentId: string): (n: nat)
    ensures n <= |assignments|
  {
    if assignments == [] then 0
    else
      var last := assignments[|assignments| - 1];
      CountFor(assignments[..|assignments| - 1], equipmentId) + (if last.equipmentId == equipmentId then 1 else 0)
  }

  lemma {:induction false} CountForAppend(a: seq<Assignment>, b: seq<Assignment>, equipmentId: string)
    ensures CountFor(a + b, equipmentId) == CountFor(a, equipmentId) + CountFor(b, equipmentId)
  {
    if b == [] {
      assert a + b == a;
    } else {
      var init := b[..|b| - 1];
      CountForAppend(a, init, equipmentId);
      assert (a + b)[..|a + b| - 1] == a + init;
    }
  }

  lemma {:induction false} CountForAll(a: seq<Assignment>, equipmentId: string)
    requires forall x :: x in a ==> x.equipmentId == equipmentId
    ensures CountFor(a, equipmentId) == |a|
  {
    if a != [] {
      CountForAll(a[..|a| - 1], equipmentId);
    }
  }

  lemma {:induction false} CountForNone(a: seq<Assignment>, equipmentId: string)
    requires forall x :: x in a ==> x.equipmentId != equipmentId
    ensures CountFor(a, equipmentId) == 0
  {
    if a != [] {
      CountForNone(a[..|a| - 1], equipmentId);
    }
  }

  /** The assignments one requirement contributes, for a requirement that does not fail. */
  function Contribution(req: EquipmentRequirement, c: OccupiedInterval, ctx: EquipmentAvailabilityContext): nat {
    if !Tracked(ctx, req.equipmentId) then 0
    else if req.qty >= 1 then req.qty
    else |FreeAssignments(ctx, c, req.equipmentId)|
  }

  lemma RequirementCount(req: EquipmentRequirement, c: OccupiedInterval, ctx: EquipmentAvailabilityContext, equipmentId: string)
    requires RequirementAllocation(req, c, ctx).Success?
    ensures CountFor(RequirementAllocation(req, c, ctx).value, equipmentId) ==
      if equipmentId == req.equipmentId then Contribution(req, c, ctx) else 0
  {
    var v := RequirementAllocation(req, c, ctx).value;
    forall a | a in v ensures a.equipmentId == req.equipmentId {
      RequirementAssignmentsGenuine(req, c, ctx, a);
    }
    if equipmentId == req.equipmentId {
      CountForAll(v, equipmentId);
    } else {
      CountForNone(v, equipmentId);
    }
  }

  /** With distinct SKUs per requirement (as the input validation guarantees), a successful
      allocation holds exactly `qty` assignments for each requirement of a tracked SKU with a
      positive quantity, and none for an untracked SKU. */
  lemma {:induction false} AllocationExact(reqs: seq<EquipmentRequirement>, c: OccupiedInterval, ctx: EquipmentAvailabilityContext, k: int)
    requires forall a, b :: 0 <= a < b < |reqs| ==> reqs[a].equipmentId != reqs[b].equipmentId
    requires 0 <= k < |reqs|
    requires AllocationOf(reqs, c, ctx).Success?
    ensures CountFor(AllocationOf(reqs, c, ctx).value, reqs[k].equipmentId) == Contribution(reqs[k], c, ctx)
  {
    var n := |reqs| - 1;
    var init := reqs[..n];
    var prev := AllocationOf(init, c, ctx).value;
    var more := RequirementAllocation(reqs[n], c, ctx).value;
    var id := reqs[k].equipmentId;
    CountForAppend(prev, more, id);
    RequirementCount(reqs[n], c, ctx, id);
    if k < n {
      assert init[k] == reqs[k];
      AllocationExact(init, c, ctx, k);
    } else {
      AllocationNoneFor(init, c, ctx, id);
    }
  }

  lemma {:induction false} AllocationNoneFor(reqs: seq<EquipmentRequirement>, c: OccupiedInterval, ctx: EquipmentAvailabilityContext, id: string)
    requires forall k :: 0 <= k < |reqs| ==> reqs[k].equipmentId != id
    requires AllocationOf(reqs, c, ctx).Success?
    ensures CountFor(AllocationOf(reqs, c, ctx).value, id) == 0
  {
    if reqs != [] {
      var n := |reqs| - 1;
      var init := reqs[..n];
      AllocationNoneFor(init, c, ctx, id);
      CountForAppend(AllocationOf(init, c, ctx).value, RequirementAllocation(reqs[n], c, ctx).value, id);
      RequirementCount(reqs[n], c, ctx, id);
    }
  }

  /** The free items of a SKU are its available items minus those counted busy. */
  lemma {:induction false} FreeCount(items: seq<EquipmentItemRecord>, c: OccupiedInterval, ctx: EquipmentAvailabilityContext, equipmentId: string)
    ensures |Pick(items, FreeEntry(ctx, c, equipmentId))| ==
      |items| - CountBusyItems(items, ctx.equipmentUsageByItemId, c.occupiedStart, c.occupiedEnd)
  {
    if items != [] {
      FreeCount(items[..|items| - 1], c, ctx, equipmentId);
    }
  }

  /** The capacity check and the allocation agree for a tracked SKU whose stock does not exceed
      its available items: when the capacity check passes, the allocation finds enough free
      items. */
  lemma AvailabilityImpliesAllocation(req: EquipmentRequirement, c: OccupiedInterval, ctx: EquipmentAvailabilityContext)
    requires RequirementMet(ctx, req, c)
    requires ctx.equipmentById[req.equipmentId].stock <= |Lookup(ctx.availableItemsByEquipmentId, req.equipmentId)|
    ensures RequirementAllocation(req, c, ctx).Success?
  {
    var items := Lookup(ctx.availableItemsByEquipmentId, req.equipmentId);
    FreeCount(items, c, ctx, req.equipmentId);
  }
}
