/** `sanityAndReorderBPOrStandaloneSpecFirst`: classifies the specifiers of one
    bundle request by category, rejects batches that cannot form a bundle, and
    emits the base specifier first, then the add-ons, then the standalones. */
module SpecifierOrder {
  import opened Outcomes
  import opened Catalog

  /** The specifiers of `s` whose plan has category `c`, in input order. */
  function OfCategory(s: seq<PlanSpec>, c: Category): seq<PlanSpec>
  {
    if |s| == 0 then []
    else OfCategory(s[..|s| - 1], c) + (if s[|s| - 1].category == c then [s[|s| - 1]] else [])
  }

  /** Selecting by category distributes over concatenation. */
  lemma {:induction false} OfCategoryAppend(s: seq<PlanSpec>, t: seq<PlanSpec>, c: Category)
    ensures OfCategory(s + t, c) == OfCategory(s, c) + OfCategory(t, c)
    decreases |t|
  {
    if |t| == 0 {
      assert s + t == s;
    } else {
      var t' := t[..|t| - 1];
      assert (s + t)[..|s + t| - 1] == s + t';
      OfCategoryAppend(s, t', c);
    }
  }

  /** Selecting one specifier by its own category keeps it; any other category drops it. */
  lemma OfCategoryStep(s: seq<PlanSpec>, c: Category)
    requires |s| > 0
    ensures multiset(OfCategory(s, c)) == multiset(OfCategory(s[..|s| - 1], c))
              + (if s[|s| - 1].category == c then multiset{s[|s| - 1]} else multiset{})
  {
  }

  /** A sequence holds its prefix and its last element. */
  lemma MultisetOfLast(s: seq<PlanSpec>)
    requires |s| > 0
    ensures multiset(s) == multiset(s[..|s| - 1]) + multiset{s[|s| - 1]}
  {
    assert s == s[..|s| - 1] + [s[|s| - 1]];
  }

  /** The three selections together hold every specifier exactly once: counted
      as multisets, they add up to the whole batch. */
  lemma {:induction false} OfCategorySum(s: seq<PlanSpec>)
    ensures multiset(OfCategory(s, Base)) + multiset(OfCategory(s, AddOn)) + multiset(OfCategory(s, Standalone))
            == multiset(s)
  {
    if |s| > 0 {
      OfCategorySum(s[..|s| - 1]);
      MultisetOfLast(s);
      OfCategoryStep(s, Base);
      OfCategoryStep(s, AddOn);
      OfCategoryStep(s, Standalone);
    }
  }

  /** The outcome of a well-formed batch: the reordered specifiers and whether
      they establish a base or standalone plan (so a new bundle may be needed). */
  datatype Reordered = Reordered(specs: seq<PlanSpec>, hasBaseOrStandalone: bool)

  /** The batch is rejected: two base plans, or standalone plans next to a base
      plan or an add-on. */
  predicate InvalidBatch(batch: seq<PlanSpec>)
  {
    |OfCategory(batch, Base)| >= 2
    || (|OfCategory(batch, Standalone)| > 0 && |OfCategory(batch, Base)| + |OfCategory(batch, AddOn)| > 0)
  }

  /** The order an accepted batch comes out in: the base plan, then the add-ons,
      then the standalone plans, each group in input order. */
  function Reordering(batch: seq<PlanSpec>): seq<PlanSpec>
  {
    OfCategory(batch, Base) + OfCategory(batch, AddOn) + OfCategory(batch, Standalone)
  }

  /** The batch holds a base or standalone plan, so it can start a bundle of its own. */
  predicate EstablishesBundle(batch: seq<PlanSpec>)
  {
    |OfCategory(batch, Base)| + |OfCategory(batch, Standalone)| > 0
  }

  method ReorderBaseOrStandaloneFirst(batch: seq<PlanSpec>) returns (r: Result<Reordered>)
    ensures r.Err? <==> InvalidBatch(batch)
    ensures r.Err? ==> r.code == InvalidEntitlementSpecifier
    ensures r.Ok? ==> r.value.specs == Reordering(batch)
    ensures r.Ok? ==> r.value.hasBaseOrStandalone == EstablishesBundle(batch)
  {
    var basePlan: Option<PlanSpec> := None;
    var addOns: seq<PlanSpec> := [];
    var standalones: seq<PlanSpec> := [];
    var i := 0;
    while i < |batch|
      invariant 0 <= i <= |batch|
      invariant addOns == OfCategory(batch[..i], AddOn)
      invariant standalones == OfCategory(batch[..i], Standalone)
      invariant basePlan.None? ==> OfCategory(batch[..i], Base) == []
      invariant basePlan.Some? ==> OfCategory(batch[..i], Base) == [basePlan.value]
    {
      var cur := batch[i];
      assert batch[..i + 1][..i] == batch[..i];
      if cur.category == Standalone {
        standalones := standalones + [cur];
      } else if cur.category == Base {
        if basePlan.None? {
          basePlan := Some(cur);
        } else {
          OfCategoryAppend(batch[..i + 1], batch[i + 1..], Base);
          assert batch[..i + 1] + batch[i + 1..] == batch;
          return Err(InvalidEntitlementSpecifier);
        }
      } else {
        addOns := addOns + [cur];
      }
      i := i + 1;
    }
    assert batch[..i] == batch;
    var output := (if basePlan.Some? then [basePlan.value] else []) + addOns;
    if |output| > 0 && |standalones| > 0 {
      return Err(InvalidEntitlementSpecifier);
    }
    if |standalones| == 0 {
      return Ok(Reordered(output, basePlan.Some?));
    } else {
      return Ok(Reordered(output + standalones, true));
    }
  }

  /** Every selected specifier has the selected category and comes from the input. */
  lemma {:induction false} OfCategoryMembers(s: seq<PlanSpec>, c: Category)
    ensures forall k :: 0 <= k < |OfCategory(s, c)| ==> OfCategory(s, c)[k].category == c && OfCategory(s, c)[k] in s
  {
    if |s| > 0 {
      OfCategoryMembers(s[..|s| - 1], c);
    }
  }

  /** Every input specifier of the selected category is selected. */
  lemma {:induction false} OfCategoryComplete(s: seq<PlanSpec>, c: Category, x: PlanSpec)
    requires x in s && x.category == c
    ensures x in OfCategory(s, c)
  {
    if s[|s| - 1] != x {
      assert s == s[..|s| - 1] + [s[|s| - 1]];
      OfCategoryComplete(s[..|s| - 1], c, x);
    }
  }

  /** An accepted batch comes out with no base plan after the first position. */
  lemma ReorderedSingleBase(batch: seq<PlanSpec>, out: seq<PlanSpec>)
    requires !InvalidBatch(batch)
    requires out == OfCategory(batch, Base) + OfCategory(batch, AddOn) + OfCategory(batch, Standalone)
    ensures forall i :: 0 < i < |out| ==> out[i].category != Base
  {
    var b, a, st := OfCategory(batch, Base), OfCategory(batch, AddOn), OfCategory(batch, Standalone);
    OfCategoryMembers(batch, AddOn);
    OfCategoryMembers(batch, Standalone);
    assert |b| <= 1;
    forall i | 0 < i < |out|
      ensures out[i].category != Base
    {
      if i >= |b| + |a| {
        assert out[i] == st[i - |b| - |a|];
      } else {
        assert out[i] == a[i - |b|];
      }
    }
  }

  /** When the batch holds a base plan, the reordered batch starts with it. */
  lemma ReorderedBaseFirst(batch: seq<PlanSpec>, out: seq<PlanSpec>, i: nat)
    requires i < |batch| && batch[i].category == Base
    requires out == OfCategory(batch, Base) + OfCategory(batch, AddOn) + OfCategory(batch, Standalone)
    ensures |out| > 0 && out[0].category == Base
  {
    OfCategoryComplete(batch, Base, batch[i]);
    OfCategoryMembers(batch, Base);
    assert out[0] == OfCategory(batch, Base)[0];
  }

  /** An accepted batch holds either standalone plans only or none at all. */
  lemma ReorderedStandaloneAlone(batch: seq<PlanSpec>, out: seq<PlanSpec>)
    requires !InvalidBatch(batch)
    requires out == OfCategory(batch, Base) + OfCategory(batch, AddOn) + OfCategory(batch, Standalone)
    ensures (forall i :: 0 <= i < |out| ==> out[i].category == Standalone)
            || (forall i :: 0 <= i < |out| ==> out[i].category != Standalone)
  {
    var b, a, st := OfCategory(batch, Base), OfCategory(batch, AddOn), OfCategory(batch, Standalone);
    OfCategoryMembers(batch, Base);
    OfCategoryMembers(batch, AddOn);
    OfCategoryMembers(batch, Standalone);
    if |st| > 0 {
      assert out == st;
    } else {
      assert out == b + a;
      forall i | 0 <= i < |out|
        ensures out[i].category != Standalone
      {
        if i < |b| { assert out[i] == b[i]; } else { assert out[i] == a[i - |b|]; }
      }
    }
  }

  /** A batch with a single base plan and add-ons is accepted and reordered with
      the base plan first, whatever its position in the input. */
  lemma BaseMovesFirst(a: PlanSpec, b: PlanSpec)
    requires a.category == AddOn && b.category == Base
    ensures !InvalidBatch([a, b])
    ensures OfCategory([a, b], Base) + OfCategory([a, b], AddOn) + OfCategory([a, b], Standalone) == [b, a]
  {
    assert [a, b][..1] == [a];
    assert [a][..0] == [];
    assert OfCategory([a], Base) == [];
    assert OfCategory([a], AddOn) == [a];
    assert OfCategory([a], Standalone) == [];
    assert OfCategory([a, b], Base) == [b];
    assert OfCategory([a, b], AddOn) == [a];
    assert OfCategory([a, b], Standalone) == [];
  }
}
