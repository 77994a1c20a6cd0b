/**
 * The list of recurring costs and the three operations the calculator offers
 * on it: append a placeholder item, replace one field of the items carrying a
 * given id, and delete the items carrying a given id. The list is a value: each
 * operation returns a new list and never changes its argument.
 */
module Costs {

  /** The two currencies a cost may be entered in. */
  datatype Currency = USD | BRL

  /** One recurring cost; `id` is opaque and only used to find the item again. */
  datatype CostItem = CostItem(id: string, name: string, amount: real, currency: Currency)

  /** The field an edit replaces, together with its new value. */
  datatype FieldUpdate =
    | SetId(id: string)
    | SetName(name: string)
    | SetAmount(amount: real)
    | SetCurrency(currency: Currency)

  /** Label given to every freshly added cost. */
  const DefaultName: string := "Novo Custo"

  /** The item appended by AddCost under the id the caller chose. */
  function DefaultItem(freshId: string): (item: CostItem) {
    CostItem(freshId, DefaultName, 0.0, BRL)
  }

  /** The ids of the items, in list order. */
  function Ids(costs: seq<CostItem>): (ids: seq<string>) {
    seq(|costs|, i requires 0 <= i < |costs| => costs[i].id)
  }

  /** No two items of the list share an id. */
  predicate UniqueIds(costs: seq<CostItem>) {
    forall i, j :: 0 <= i < j < |costs| ==> costs[i].id != costs[j].id
  }

  /** A copy of `c` with the one field named by `u` replaced. */
  function Apply(c: CostItem, u: FieldUpdate): (r: CostItem)
    ensures r.id == (if u.SetId? then u.id else c.id)
    ensures r.name == (if u.SetName? then u.name else c.name)
    ensures r.amount == (if u.SetAmount? then u.amount else c.amount)
    ensures r.currency == (if u.SetCurrency? then u.currency else c.currency)
  {
    match u
    case SetId(v) => c.(id := v)
    case SetName(v) => c.(name := v)
    case SetAmount(v) => c.(amount := v)
    case SetCurrency(v) => c.(currency := v)
  }

  /** Appends the placeholder item; `freshId` stands for the clock-derived id. */
  function AddCost(costs: seq<CostItem>, freshId: string): (r: seq<CostItem>)
    ensures |r| == |costs| + 1 && r[..|costs|] == costs
    ensures r[|costs|].id == freshId && r[|costs|].name == DefaultName
    ensures r[|costs|].amount == 0.0 && r[|costs|].currency == BRL
    ensures UniqueIds(costs) && freshId !in Ids(costs) ==> UniqueIds(r)
  {
    var r := costs + [DefaultItem(freshId)];
    assert forall i :: 0 <= i < |costs| ==> costs[i].id == Ids(costs)[i];
    r
  }

  /** Replaces one field of every item whose id is `id`; the others are kept. */
  function UpdateCost(costs: seq<CostItem>, id: string, u: FieldUpdate): (r: seq<CostItem>)
    ensures |r| == |costs|
    ensures forall i :: 0 <= i < |costs| && costs[i].id == id ==> r[i] == Apply(costs[i], u)
    ensures forall i :: 0 <= i < |costs| && costs[i].id != id ==> r[i] == costs[i]
  {
    if costs == [] then []
    else
      var head := if costs[0].id == id then Apply(costs[0], u) else costs[0];
      [head] + UpdateCost(costs[1..], id, u)
  }

  /** Keeps, in order, the items whose id is not `id`. */
  function RemoveCost(costs: seq<CostItem>, id: string): (r: seq<CostItem>)
    ensures forall c :: c in r <==> c in costs && c.id != id
    ensures |r| <= |costs|
  {
    if costs == [] then []
    else if costs[0].id == id then RemoveCost(costs[1..], id)
    else [costs[0]] + RemoveCost(costs[1..], id)
  }

  /** Each item with another id is kept as many times as it occurs; items with the id are all dropped. */
  lemma {:induction false} RemoveCounts(costs: seq<CostItem>, id: string)
    ensures forall c :: multiset(RemoveCost(costs, id))[c] == (if c.id == id then 0 else multiset(costs)[c])
  {
    if costs != [] {
      RemoveCounts(costs[1..], id);
      assert costs == [costs[0]] + costs[1..];
      assert multiset(costs) == multiset{costs[0]} + multiset(costs[1..]);
      if costs[0].id != id {
        var rest := RemoveCost(costs[1..], id);
        assert multiset([costs[0]] + rest) == multiset{costs[0]} + multiset(rest);
      }
    }
  }

  /** An edit that is not of the id keeps the id sequence. */
  lemma UpdateKeepsIds(costs: seq<CostItem>, id: string, u: FieldUpdate)
    requires !u.SetId?
    ensures Ids(UpdateCost(costs, id, u)) == Ids(costs)
    ensures UniqueIds(costs) ==> UniqueIds(UpdateCost(costs, id, u))
  {
  }

  /** An edit of an id that is not in the list returns the list unchanged. */
  lemma UpdateAbsentIsIdentity(costs: seq<CostItem>, id: string, u: FieldUpdate)
    requires id !in Ids(costs)
    ensures UpdateCost(costs, id, u) == costs
  {
    var r := UpdateCost(costs, id, u);
    forall i | 0 <= i < |costs| ensures r[i] == costs[i] {
      assert Ids(costs)[i] == costs[i].id;
    }
  }

  /** The kept items of a concatenation are the kept items of each part, in order. */
  lemma {:induction false} RemoveDistributes(xs: seq<CostItem>, ys: seq<CostItem>, id: string)
    ensures RemoveCost(xs + ys, id) == RemoveCost(xs, id) + RemoveCost(ys, id)
  {
    if xs == [] {
      assert xs + ys == ys;
    } else {
      assert (xs + ys)[1..] == xs[1..] + ys;
      RemoveDistributes(xs[1..], ys, id);
    }
  }

  /** Removing an id that is not in the list returns the list unchanged. */
  lemma {:induction false} RemoveAbsentIsIdentity(costs: seq<CostItem>, id: string)
    requires id !in Ids(costs)
    ensures RemoveCost(costs, id) == costs
  {
    if costs != [] {
      assert Ids(costs)[0] == costs[0].id;
      assert Ids(costs[1..]) == Ids(costs)[1..];
      RemoveAbsentIsIdentity(costs[1..], id);
      assert [costs[0]] + costs[1..] == costs;
    }
  }

  /** Removing keeps ids unique. */
  lemma {:induction false} RemoveKeepsUnique(costs: seq<CostItem>, id: string)
    requires UniqueIds(costs)
    ensures UniqueIds(RemoveCost(costs, id))
  {
    if costs != [] {
      var rest := RemoveCost(costs[1..], id);
      RemoveKeepsUnique(costs[1..], id);
      if costs[0].id != id {
        forall j | 0 <= j < |rest| ensures rest[j].id != costs[0].id {
          assert rest[j] in costs[1..];
        }
      }
    }
  }

  /** Removing the fresh id of a just-added item gives back the original list. */
  lemma RemoveUndoesAdd(costs: seq<CostItem>, freshId: string)
    requires freshId !in Ids(costs)
    ensures RemoveCost(AddCost(costs, freshId), freshId) == costs
  {
    RemoveDistributes(costs, [DefaultItem(freshId)], freshId);
    RemoveAbsentIsIdentity(costs, freshId);
    assert RemoveCost([DefaultItem(freshId)], freshId) == [];
  }
}
